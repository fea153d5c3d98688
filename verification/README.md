# Productos e Inventario — a verified Dafny model

This project models the core of two Spring services.

**Inventory service (`inventario`).** `InventarioServiceImpl` keeps one stock record per product
(`Inventario`: id, product id, quantity). It answers enriched reads by combining a record with the
remote product catalog's answer (`InventarioConProductoDTO`, with a derived total value and stock
tier). A catalog that has no such product, or that fails, turns into the placeholders
"PRODUCTO NO ENCONTRADO" and "SERVICIO NO DISPONIBLE" instead of an error. The service also does
the quantity-changing operations: upsert, create after an existence check, set quantity, purchase
deduction (`CompraResponse`) and delete. Paged reads are wrapped in a `JsonApiResponse`.

**Product service (`productos`).** `ProductoServiceImpl` lists the active products, looks one up
by id and creates one after validating the request. It refuses a name already used by an active
product, ignoring case. Its entity `Producto` and request `ProductoRequestDto` carry Bean
Validation constraints. Its errors are `ProductoException` values. `GlobalExceptionHandler` maps
them to an HTTP status and an `ApiResponse` body built by `ApiResponseBuilder`.

How the model is built:

- **State.** Each table is a value: a map from product id to record for `inventario`, and a sequence
  of rows in id order for `productos`. Each also holds the next value of its id sequence.
- **Operations.** Each service operation is first a function from the table (and the catalog's
  answers) to its outcome and the new table. Then the classes `InventarioServiceImpl`,
  `ProductoServiceImpl`, `InventarioRepository`, `ProductoRepository` and `Producto` do the same
  step by step on fields updated in place, and each method is proved equal to its function.
- **Errors.** An exception becomes a `Failure` value: `InventarioError` on the inventory side, and
  `ProductoException` or `Fallo` on the product side.
- **Remote catalog.** Each lookup is a `CatalogAnswer` parameter: `Found`, `NotFound` or
  `Unavailable(message)`.
- **Saving.** A save runs the entity's Bean Validation constraints and refuses an invalid entity
  without writing. This stands for the constraint violation and the rollback of the
  `@Transactional` method. An entity without an id, or with an id that names no record, is
  inserted: it draws the next sequence value first, and a refused insert does not give that value
  back. An inventory entity whose id names a stored record is merged over that record and draws
  nothing.
- **Types.** Prices (`BigDecimal`) are exact `real` numbers, so 15.75 × 8 is exactly 126.00. Java
  `int`/`Integer` is the subset type `Int32`, and the purchase subtraction wraps as Java's does.
  Ids (`Long`) are unbounded integers. Null is `None`.

Where the design description of the inventory core and the code differ, the model follows the code.
Each difference is stated by a lemma:

- **Upsert and set-quantity do not check the quantity.** The description says they check it
  before touching the store; the service does not. Only the entity's `@Min(0)` constraint refuses
  a negative quantity when it is saved (`Guardar`, `Actualizar`, `StoredQuantitiesNeverNegative`).
- **The purchase amount is never checked for sign.** A negative amount passes the stock test and
  increases the stock (`NegativePurchaseIncreasesStock`). An amount that overflows `int` wraps to
  a negative quantity, which the table refuses (`OverflowingPurchaseRefused`).
- **The placeholder names are the Spanish strings** the code uses.
- **The refusals for a missing product or record are `RuntimeException`s** with Spanish messages.
- **A client-supplied id is trusted by the upsert.** When no record exists for the product id, the
  record is saved with the id the client sent. If that id is another product's record, the merge
  moves that record to the new product id (`ClientIdTakesOverAnotherRecord`).

On the product side, `crearProducto` logs the request's name before validating it. So a null
request ends in a `NullPointerException` (`Fallo.NullPointer`), never in the "El producto no puede
ser nulo" validation error that `validarProductoRequest` would raise.

## Model

| member | source | states |
|---|---|---|
| JavaLang.Wrap32 | inventario/src/main/java/com/jsuarez/inventario_api/service/impl/InventarioServiceImpl.java:180 | Java `int` subtraction: the result agrees with the exact value modulo 2^32 and equals it whenever the exact value is in the `int` range |
| InventarioEntity.Violations | inventario/src/main/java/com/jsuarez/inventario_api/entity/Inventario.java:23-31 | no violation exactly when the product id is present and ≥ 1 and the quantity is present and ≥ 0; each missing or out-of-range field reports its own message |
| InventarioEntity.ZeroStockIsValid | inventario/src/main/java/com/jsuarez/inventario_api/entity/Inventario.java:28-29 | a quantity of 0 is valid and −1 is not |
| InventarioStore.EmptyInvariant | inventario/src/main/java/com/jsuarez/inventario_api/entity/Inventario.java:18-31 | the empty table satisfies the table invariant: records keyed by their own product id, valid, with distinct ids already drawn from the sequence |
| InventarioStore.Lookup | inventario/src/main/java/com/jsuarez/inventario_api/repository/InventarioRepository.java:18 | finds the record exactly when the product id is non-null and has one |
| InventarioStore.Persist | inventario/src/main/java/com/jsuarez/inventario_api/entity/Inventario.java:18-31 | an entity whose id names no record is inserted: it draws the next sequence value, then an invalid entity is refused with its violations and a taken product id is refused; an entity whose id names a stored record is validated, refused if its product id belongs to another record, and otherwise replaces that record under its product id, drawing no value; a refusal writes no record; the table invariant is preserved |
| InventarioStore.Remove | inventario/src/main/java/com/jsuarez/inventario_api/service/impl/InventarioServiceImpl.java:244 | only the record of that product id disappears; the other records and the sequence are untouched; the invariant is preserved |
| InventarioStore.PersistStoredIsNoOp | inventario/src/main/java/com/jsuarez/inventario_api/service/impl/InventarioServiceImpl.java:108-110 | saving a record exactly as stored returns it and leaves the table unchanged |
| InventarioStore.InventarioRepository.constructor | inventario/src/main/java/com/jsuarez/inventario_api/repository/InventarioRepository.java:11 | a new repository holds the empty table and satisfies the invariant |
| InventarioStore.InventarioRepository.FindByProductoId | inventario/src/main/java/com/jsuarez/inventario_api/repository/InventarioRepository.java:18 | agrees with `Lookup` on the repository's current table |
| InventarioStore.InventarioRepository.FindAll | inventario/src/main/java/com/jsuarez/inventario_api/service/impl/InventarioServiceImpl.java:217 | returns as many records as are stored, every stored record among them and nothing that is not stored |
| InventarioStore.InventarioRepository.Save | inventario/src/main/java/com/jsuarez/inventario_api/service/impl/InventarioServiceImpl.java:110-116 | the answer and the new table are those of `Persist` on the old table, on both the insert and the merge path |
| InventarioStore.InventarioRepository.Delete | inventario/src/main/java/com/jsuarez/inventario_api/service/impl/InventarioServiceImpl.java:244 | the new table is that of `Remove` on the old table |
| InventarioConProductoDto.DeterminarEstadoStock | inventario/src/main/java/com/jsuarez/inventario_api/dto/InventarioConProductoDTO.java:54-64 | SIN_STOCK iff the quantity is null or ≤ 0, STOCK_BAJO iff 1..50, STOCK_MEDIO iff 51..100, STOCK_ALTO iff > 100 |
| InventarioConProductoDto.EstadoStockMonotone | inventario/src/main/java/com/jsuarez/inventario_api/dto/InventarioConProductoDTO.java:54-64 | a larger quantity never gives a lower tier |
| InventarioConProductoDto.EstadoStockBoundaries | inventario/src/main/java/com/jsuarez/inventario_api/dto/InventarioConProductoDTO.java:55-62 | null, −5 and 0 give SIN_STOCK; 1 and 50 STOCK_BAJO; 51 and 100 STOCK_MEDIO; 101 STOCK_ALTO |
| InventarioConProductoDto.NewInventarioConProducto | inventario/src/main/java/com/jsuarez/inventario_api/dto/InventarioConProductoDTO.java:34-49 | the five inputs are kept; the total is price × quantity exactly when both are non-null and null otherwise; the tier is that of the quantity |
| InventarioConProductoDto.EstadoStockIgnoresPrice | inventario/src/main/java/com/jsuarez/inventario_api/dto/InventarioConProductoDTO.java:48 | the tier is the same whatever the name and price, including none |
| InventarioConProductoDto.ExactTotalValue | inventario/src/main/java/com/jsuarez/inventario_api/dto/InventarioConProductoDTO.java:43-45 | 15.75 × 8 is exactly 126.00 and 50.00 × 100 is exactly 5000.00 |
| CompraResponseDto.NewCompraResponse | inventario/src/main/java/com/jsuarez/inventario_api/dto/CompraResponse.java:23-32 | the five inputs are kept as given, nulls included, and the status is always "EXITOSA" with the fixed purchase message |
| JsonApi.MapPage | inventario/src/main/java/com/jsuarez/inventario_api/service/impl/InventarioServiceImpl.java:230 | the mapped page has the same length, each element converted in place, and the same number, size, totals, first and last |
| JsonApi.FromList | inventario/src/main/java/com/jsuarez/inventario_api/dto/JsonApiResponse.java:22-26 | data and message as given, no paging metadata |
| JsonApi.FromPage | inventario/src/main/java/com/jsuarez/inventario_api/dto/JsonApiResponse.java:29-40 | data is the page content; meta page is the 0-based number plus one (wrapping at `int` max); size, total elements, total pages, first and last are copied |
| JsonApi.FromItem | inventario/src/main/java/com/jsuarez/inventario_api/dto/JsonApiResponse.java:43-47 | data is a one-element list holding the item; no metadata |
| ProductoCatalog.ExisteProducto | inventario/src/main/java/com/jsuarez/inventario_api/client/ProductoClient.java:98-101 | true iff the lookup finds the product, false iff it reports absence, and a failing lookup stays a failure with its message |
| InventarioEnrichment.ObtenerInventarioCompleto | inventario/src/main/java/com/jsuarez/inventario_api/service/impl/InventarioServiceImpl.java:37-96 | empty iff there is no local record, whatever the catalog answers; otherwise a view copying the record, showing the catalog's name and price or the matching placeholder with a null price, and with consistent derived fields |
| InventarioEnrichment.MapearInventarioCompleto | inventario/src/main/java/com/jsuarez/inventario_api/service/impl/InventarioServiceImpl.java:257-290 | the view copies the record, shows the answer (or its placeholder) and has consistent derived fields, for all three answers |
| InventarioEnrichment.ObtenerAgreesWithMapear | inventario/src/main/java/com/jsuarez/inventario_api/service/impl/InventarioServiceImpl.java:257-290 | the single-record read and the per-record rule of the paged read give the same view |
| InventarioEnrichment.ObtenerTodosLosInventariosCompletos | inventario/src/main/java/com/jsuarez/inventario_api/service/impl/InventarioServiceImpl.java:222-236 | same length, order and page metadata as the repository's page; element i is record i enriched with the answer of the i-th lookup |
| InventarioEnrichment.PageElementsIndependent | inventario/src/main/java/com/jsuarez/inventario_api/service/impl/InventarioServiceImpl.java:230 | an element's view depends only on its own lookup's answer, not on the answers for the other records |
| InventarioService.InventarioError.Message | inventario/src/main/java/com/jsuarez/inventario_api/service/impl/InventarioServiceImpl.java:143-147 | a catalog failure is rethrown with its own message unchanged |
| InventarioService.Guardar | inventario/src/main/java/com/jsuarez/inventario_api/service/impl/InventarioServiceImpl.java:98-121 | succeeds iff the record is valid, and an invalid one is refused with its violations without writing a record; on an existing product id only the quantity changes and the id and key set stay; otherwise a record with a free or missing id is inserted with the next id, and one whose id names a stored record replaces it; the sequence advances exactly when an insert is attempted; the invariant is preserved |
| InventarioService.GuardarIdempotent | inventario/src/main/java/com/jsuarez/inventario_api/service/impl/InventarioServiceImpl.java:104-120 | the same upsert applied twice gives the same answer and the same records as once; after a success the table is unchanged, and a refusal draws the same number of sequence values again |
| InventarioService.ClientIdTakesOverAnotherRecord | inventario/src/main/java/com/jsuarez/inventario_api/service/impl/InventarioServiceImpl.java:114-116 | an upsert for a product with no record, carrying the id of another product's record, succeeds by moving that record to the new product id with the new quantity, keeping the id and drawing no sequence value |
| InventarioService.CrearConValidacion | inventario/src/main/java/com/jsuarez/inventario_api/service/impl/InventarioServiceImpl.java:123-149 | a failing existence check is rethrown and an absent product refused, both with the table untouched; otherwise the table is that of the upsert; success iff the product exists and the record is valid, returning the enriched view of the saved record |
| InventarioService.ProductoInexistenteMessage | inventario/src/main/java/com/jsuarez/inventario_api/service/impl/InventarioServiceImpl.java:130-131 | the refusal's message contains "el producto ID {id} no existe" |
| InventarioService.Actualizar | inventario/src/main/java/com/jsuarez/inventario_api/service/impl/InventarioServiceImpl.java:151-166 | an absent product id fails not-found with the table untouched; otherwise succeeds iff the new quantity is present and ≥ 0, and then exactly that record's quantity changes |
| InventarioService.NoEncontradoMessage | inventario/src/main/java/com/jsuarez/inventario_api/service/impl/InventarioServiceImpl.java:155-156 | the not-found message is the fixed prefix followed by the decimal product id, which parses back to the id |
| InventarioService.NombreCompra | inventario/src/main/java/com/jsuarez/inventario_api/service/impl/InventarioServiceImpl.java:185-194 | the catalog's name when the product is found; "Producto ID {id}" when it is absent or the call fails |
| InventarioService.Reducir | inventario/src/main/java/com/jsuarez/inventario_api/service/impl/InventarioServiceImpl.java:168-211 | absent id fails not-found; stock below the request fails with both amounts and writes nothing; otherwise succeeds iff the remainder fits in an `int`, stores remainder = stock − request ≥ 0 in that record only, and reports the record id, requested and remaining amounts |
| InventarioService.StockInsuficienteMessage | inventario/src/main/java/com/jsuarez/inventario_api/service/impl/InventarioServiceImpl.java:175-178 | the message contains "Disponible: {stock}" and "Solicitado: {requested}" |
| InventarioService.ReducirFailureIgnoresCatalog | inventario/src/main/java/com/jsuarez/inventario_api/service/impl/InventarioServiceImpl.java:172-178 | a refused deduction is the same whatever the catalog would answer, so the catalog plays no part |
| InventarioService.ReducirCommitsWhateverTheCatalog | inventario/src/main/java/com/jsuarez/inventario_api/service/impl/InventarioServiceImpl.java:180-194 | the committed table and the success of the call do not depend on the name lookup's answer |
| InventarioService.NegativePurchaseIncreasesStock | inventario/src/main/java/com/jsuarez/inventario_api/service/impl/InventarioServiceImpl.java:175-182 | a negative purchase amount is reported as a successful purchase and raises the stored stock |
| InventarioService.OverflowingPurchaseRefused | inventario/src/main/java/com/jsuarez/inventario_api/service/impl/InventarioServiceImpl.java:180-182 | buying `int` min units from a stock of 10 wraps to a negative remainder, which the table refuses with the non-negative-quantity violation |
| InventarioService.Eliminar | inventario/src/main/java/com/jsuarez/inventario_api/service/impl/InventarioServiceImpl.java:238-252 | true iff a record existed; afterwards exactly that product id is gone and nothing else changes; false leaves the table as it was |
| InventarioService.EliminarIdempotent | inventario/src/main/java/com/jsuarez/inventario_api/service/impl/InventarioServiceImpl.java:242-251 | deleting again finds nothing and changes nothing |
| InventarioService.Aplicar | inventario/src/main/java/com/jsuarez/inventario_api/service/impl/InventarioServiceImpl.java:98-252 | every write operation preserves the table invariant, whatever its arguments and catalog answers |
| InventarioService.Ejecutar | inventario/src/main/java/com/jsuarez/inventario_api/service/impl/InventarioServiceImpl.java:98-252 | any sequence of write operations preserves the table invariant |
| InventarioService.StoredQuantitiesNeverNegative | inventario/src/main/java/com/jsuarez/inventario_api/entity/Inventario.java:25-31 | from the empty table, after any sequence of operations, each product id has one record, keyed by its own id, with a present quantity ≥ 0 |
| InventarioService.InventarioServiceImpl.constructor | inventario/src/main/java/com/jsuarez/inventario_api/service/impl/InventarioServiceImpl.java:25-26 | the service holds the given repository |
| InventarioService.InventarioServiceImpl.ObtenerInventarioPorProductoId | inventario/src/main/java/com/jsuarez/inventario_api/service/impl/InventarioServiceImpl.java:28-33 | returns the record iff the product id has one |
| InventarioService.InventarioServiceImpl.ObtenerTodosLosInventarios | inventario/src/main/java/com/jsuarez/inventario_api/service/impl/InventarioServiceImpl.java:213-218 | returns as many records as are stored, every stored record among them and nothing else |
| InventarioService.InventarioServiceImpl.ObtenerInventarioCompletoPorProductoId | inventario/src/main/java/com/jsuarez/inventario_api/service/impl/InventarioServiceImpl.java:35-96 | empty iff there is no local record; otherwise the view of the record and the answer; agrees with `ObtenerInventarioCompleto` |
| InventarioService.InventarioServiceImpl.GuardarInventario | inventario/src/main/java/com/jsuarez/inventario_api/service/impl/InventarioServiceImpl.java:98-121 | answer and new table are those of `Guardar` on the old table; the invariant is kept |
| InventarioService.InventarioServiceImpl.CrearInventarioConValidacion | inventario/src/main/java/com/jsuarez/inventario_api/service/impl/InventarioServiceImpl.java:123-149 | answer and new table are those of `CrearConValidacion`; the invariant is kept |
| InventarioService.InventarioServiceImpl.ActualizarCantidad | inventario/src/main/java/com/jsuarez/inventario_api/service/impl/InventarioServiceImpl.java:151-166 | answer and new table are those of `Actualizar`; the invariant is kept |
| InventarioService.InventarioServiceImpl.ReducirCantidadPorCompra | inventario/src/main/java/com/jsuarez/inventario_api/service/impl/InventarioServiceImpl.java:168-211 | answer and new table are those of `Reducir`; the invariant is kept |
| InventarioService.InventarioServiceImpl.EliminarInventarioPorProductoId | inventario/src/main/java/com/jsuarez/inventario_api/service/impl/InventarioServiceImpl.java:238-252 | answer and new table are those of `Eliminar` |
| ProductoConstraints.NombreViolations | productos/src/main/java/com/pruebatec/productos/entity/Producto.java:27-30 | "obligatorio" iff the name is null or blank, "demasiado largo" iff it is longer than 255 UTF-16 code units; valid iff neither |
| ProductoConstraints.PrecioViolations | productos/src/main/java/com/pruebatec/productos/entity/Producto.java:32-35 | a null price reports "obligatorio" only, a price below 0.01 "mayor a 0"; valid iff present and ≥ 0.01 |
| ProductoConstraints.NombreLengthBoundary | productos/src/main/java/com/pruebatec/productos/entity/Producto.java:28 | a non-blank name is valid iff its length in UTF-16 code units is at most 255 |
| ProductoConstraints.NombreBoundCountsCodeUnits | productos/src/main/java/com/pruebatec/productos/entity/Producto.java:28 | 128 characters outside the Basic Multilingual Plane are too long (256 code units), while 255 accented Latin letters are within the bound |
| ProductoConstraints.BlankNamesRefused | productos/src/main/java/com/pruebatec/productos/entity/Producto.java:27 | null, empty and whitespace-only names are refused as missing |
| ProductoConstraints.PrecioBoundary | productos/src/main/java/com/pruebatec/productos/entity/Producto.java:33 | 0.01 is accepted; 0, 0.009 and −1 are refused |
| ProductoRequest.Violations | productos/src/main/java/com/pruebatec/productos/dto/ProductoRequestDto.java:29-48 | no violation iff the name is non-blank and at most 255 UTF-16 code units long and the price is present and ≥ 0.01 |
| ProductoRequest.BothMissingTwoViolations | productos/src/main/java/com/pruebatec/productos/dto/ProductoRequestDto.java:29-41 | a request with neither name nor price has exactly the two "obligatorio" violations |
| ProductoRequest.DescripcionUnconstrained | productos/src/main/java/com/pruebatec/productos/dto/ProductoRequestDto.java:48 | changing the description never changes the violations |
| ProductoRequest.NombreLengthExamples | productos/src/main/java/com/pruebatec/productos/dto/ProductoRequestDto.java:30 | a 255-character name is valid and a 256-character one is not |
| ProductoEntity.RowViolations | productos/src/main/java/com/pruebatec/productos/entity/Producto.java:27-35 | a row is valid iff both its name and its price are |
| ProductoEntity.Stamped | productos/src/main/java/com/pruebatec/productos/entity/Producto.java:59-66 | both dates become the given instant; `activo` becomes "Y" only when null, and any other value is kept; the other columns are unchanged |
| ProductoEntity.Producto.Violations | productos/src/main/java/com/pruebatec/productos/entity/Producto.java:27-35 | the object's violations are those of its current row |
| ProductoEntity.Producto.Empty | productos/src/main/java/com/pruebatec/productos/entity/Producto.java:47-48 | the no-argument object has every field null except `activo`, which starts as "Y" |
| ProductoEntity.Producto.constructor | productos/src/main/java/com/pruebatec/productos/entity/Producto.java:51-56 | name, price and description as given, `activo` "Y", no id and no dates |
| ProductoEntity.Producto.OnCreate | productos/src/main/java/com/pruebatec/productos/entity/Producto.java:59-66 | the object's new row is the old row stamped with the instant |
| ProductoEntity.Producto.OnUpdate | productos/src/main/java/com/pruebatec/productos/entity/Producto.java:68-71 | only the update date changes |
| ProductoEntity.ToResponse | productos/src/main/java/com/pruebatec/productos/dto/ProductoResponseDto.java:29-37 | each of the seven columns is carried over unchanged |
| ProductoEntity.ToResponseInjective | productos/src/main/java/com/pruebatec/productos/dto/ProductoResponseDto.java:29-37 | two rows with the same response are the same row |
| ProductoExceptions.PorId | productos/src/main/java/com/pruebatec/productos/exception/ProductoException.java:29-36 | NOT_FOUND with the id kept and the message "Producto con ID {id} no fue encontrado"; the other fields null |
| ProductoExceptions.PorNombre | productos/src/main/java/com/pruebatec/productos/exception/ProductoException.java:39-46 | DUPLICADO with the name kept and "Ya existe un producto con el nombre: {name}"; the other fields null |
| ProductoExceptions.DeCampo | productos/src/main/java/com/pruebatec/productos/exception/ProductoException.java:49-56 | VALIDATION_ERROR keeping field, value and message verbatim; no id and no name |
| ProductoExceptions.General | productos/src/main/java/com/pruebatec/productos/exception/ProductoException.java:59-66 | GENERAL_ERROR with the message and every other field null |
| ProductoExceptions.ConTipo | productos/src/main/java/com/pruebatec/productos/exception/ProductoException.java:69-76 | exactly the given type with the message and every other field null |
| ProductoExceptions.NoEncontrado | productos/src/main/java/com/pruebatec/productos/exception/ProductoException.java:79-81 | delegates to the id constructor |
| ProductoExceptions.Duplicado | productos/src/main/java/com/pruebatec/productos/exception/ProductoException.java:83-85 | delegates to the name constructor with the flag set |
| ProductoExceptions.Validacion | productos/src/main/java/com/pruebatec/productos/exception/ProductoException.java:87-89 | delegates to the field constructor |
| ProductoExceptions.ValidacionMensaje | productos/src/main/java/com/pruebatec/productos/exception/ProductoException.java:91-93 | VALIDATION_ERROR with the message, no field and no value |
| ProductoExceptions.DuplicadoIgnoresFlag | productos/src/main/java/com/pruebatec/productos/exception/ProductoException.java:39-46 | the name constructor gives the same exception whatever the flag |
| ProductoExceptions.NotFoundMessageNamesId | productos/src/main/java/com/pruebatec/productos/exception/ProductoException.java:30 | the not-found message is prefix, decimal id, suffix, and the id parses back from between them |
| ProductoExceptions.NotFoundMessagesDistinct | productos/src/main/java/com/pruebatec/productos/exception/ProductoException.java:30 | different ids give different not-found messages |
| ProductoExceptions.DuplicadoMessageNamesProduct | productos/src/main/java/com/pruebatec/productos/exception/ProductoException.java:40 | the duplicate message contains the product's name |
| ApiResponses.Success | productos/src/main/java/com/pruebatec/productos/response/ApiResponseBuilder.java:18-20 | success with the given message and data, no meta and no errors |
| ApiResponses.SuccessWithTotal | productos/src/main/java/com/pruebatec/productos/response/ApiResponseBuilder.java:25-34 | a fresh meta with the total; the count is set iff the data is a list, and is then its size; page, page size and extras stay null |
| ApiResponses.SuccessWithMeta | productos/src/main/java/com/pruebatec/productos/response/ApiResponseBuilder.java:39-41 | success with message, data and meta as given, no errors |
| ApiResponses.Error | productos/src/main/java/com/pruebatec/productos/response/ApiResponseBuilder.java:46-50 | a failure with exactly one GENERAL_ERROR titled "Error" whose detail is the message |
| ApiResponses.ErrorWithCode | productos/src/main/java/com/pruebatec/productos/response/ApiResponseBuilder.java:55-59 | a failure whose message is the title, with exactly one error of that code and title whose detail is the message |
| ApiResponses.ValidationError | productos/src/main/java/com/pruebatec/productos/response/ApiResponseBuilder.java:64-78 | one VALIDATION_ERROR entry per input string, in input order, with that string as detail; an empty input gives an empty list |
| ApiResponses.NotFound | productos/src/main/java/com/pruebatec/productos/response/ApiResponseBuilder.java:83-98 | one NOT_FOUND error whose meta maps "productoId" to the id, null included |
| ApiResponses.DuplicateError | productos/src/main/java/com/pruebatec/productos/response/ApiResponseBuilder.java:103-118 | one DUPLICATE_ERROR error whose meta maps "nombreProducto" to the name |
| ApiResponses.CreateMeta | productos/src/main/java/com/pruebatec/productos/response/ApiResponseBuilder.java:123-130 | exactly total, count, page and page size are set |
| ApiResponses.CreateMetaTotal | productos/src/main/java/com/pruebatec/productos/response/ApiResponseBuilder.java:135-139 | only the total is set |
| GlobalExceptionHandler.HandleProductoException | productos/src/main/java/com/pruebatec/productos/exception/GlobalExceptionHandler.java:52-70 | NOT_FOUND gives 404 and a not-found body, DUPLICADO 409 and a duplicate body, VALIDATION_ERROR 400 with an error of code VALIDATION_ERROR, title "Error de validación" and the exception's message as detail, anything else 400 with code GENERAL_ERROR and title "Error general"; for the 400 answers the body's message is the title and there is no meta; status 400 exactly for the last two; never a success |
| GlobalExceptionHandler.NotFoundCarriesId | productos/src/main/java/com/pruebatec/productos/exception/GlobalExceptionHandler.java:56-63 | a missing product gives 404 with its id in the error's meta |
| GlobalExceptionHandler.DuplicateCarriesName | productos/src/main/java/com/pruebatec/productos/exception/GlobalExceptionHandler.java:57-64 | a duplicate gives 409 with the name in the error's meta |
| GlobalExceptionHandler.HandleValidationErrors | productos/src/main/java/com/pruebatec/productos/exception/GlobalExceptionHandler.java:31-46 | 400, with one VALIDATION_ERROR entry per field error's message, in order |
| GlobalExceptionHandler.HandleJsonErrors | productos/src/main/java/com/pruebatec/productos/exception/GlobalExceptionHandler.java:76-86 | 400 with a single JSON_ERROR and the fixed detail |
| GlobalExceptionHandler.HandleTypeMismatch | productos/src/main/java/com/pruebatec/productos/exception/GlobalExceptionHandler.java:93-106 | 400 with a single TYPE_MISMATCH error whose detail names the parameter and the required type |
| GlobalExceptionHandler.TypeMismatchNamesParameterAndType | productos/src/main/java/com/pruebatec/productos/exception/GlobalExceptionHandler.java:96-97 | the detail contains both the parameter's name and the type's name |
| GlobalExceptionHandler.HandleGenericException | productos/src/main/java/com/pruebatec/productos/exception/GlobalExceptionHandler.java:112-129 | 500 with a single INTERNAL_ERROR carrying the fixed administrator message |
| GlobalExceptionHandler.GenericHidesException | productos/src/main/java/com/pruebatec/productos/exception/GlobalExceptionHandler.java:118-139 | the development flag is off, so any two exceptions give the same response |
| ProductoService.PorActivo | productos/src/main/java/com/pruebatec/productos/repository/ProductoRepository.java:23 | exactly the rows with that flag, no more than the table holds |
| ProductoService.PorActivoAscending | productos/src/main/java/com/pruebatec/productos/repository/ProductoRepository.java:21-23 | filtering a table in id order keeps the id order |
| ProductoService.BuscarPorIdYActivo | productos/src/main/java/com/pruebatec/productos/repository/ProductoRepository.java:29 | finds a row iff one has that id and that flag, and returns such a row |
| ProductoService.Insertar | productos/src/main/java/com/pruebatec/productos/service/impl/ProductoServiceImpl.java:85 | the entity is stamped and draws the next sequence value; a stamped entity with violations is refused, no row is written and the drawn value is lost; otherwise it receives that id and is appended; the table invariant is preserved |
| ProductoService.Listar | productos/src/main/java/com/pruebatec/productos/service/impl/ProductoServiceImpl.java:29-40 | one response per active row, in the filter's order, each the row's response |
| ProductoService.ListarExactlyTheActive | productos/src/main/java/com/pruebatec/productos/service/impl/ProductoServiceImpl.java:33-39 | every active product is listed, only active products are listed, and in strictly increasing id order |
| ProductoService.ObtenerPorId | productos/src/main/java/com/pruebatec/productos/service/impl/ProductoServiceImpl.java:44-60 | a null or non-positive id is a VALIDATION_ERROR on field "id"; otherwise success iff an active row has the id, returning that row's response, and NOT_FOUND carrying the id otherwise |
| ProductoService.ObtenerPorIdRefusalIgnoresTable | productos/src/main/java/com/pruebatec/productos/service/impl/ProductoServiceImpl.java:47-49 | the refusal of a bad id is the same whatever the table holds, so the table is not consulted |
| ProductoService.ValidarProductoRequest | productos/src/main/java/com/pruebatec/productos/service/impl/ProductoServiceImpl.java:96-110 | a null request, then a null or blank name, then a null or non-positive price are refused with their own message in that order; passes iff none applies; every refusal is a VALIDATION_ERROR |
| ProductoService.NuevaEntidad | productos/src/main/java/com/pruebatec/productos/service/impl/ProductoServiceImpl.java:76-82 | the new entity copies name, price and description, is active, has no id, and both dates are the instant |
| ProductoService.Crear | productos/src/main/java/com/pruebatec/productos/service/impl/ProductoServiceImpl.java:63-91 | a null request fails with a null-pointer error; a request the service refuses fails with that exception; an active name equal ignoring case fails DUPLICADO; success iff the request passes its own constraints and the name is free, appending exactly one active row with the next id; a request that passes the service but breaks an entity constraint is refused by the store with those violations and consumes a sequence value; every failure leaves the rows as they were |
| ProductoService.StoreRefusalsAfterServiceCheck | productos/src/main/java/com/pruebatec/productos/service/impl/ProductoServiceImpl.java:101-109 | after the service's own checks pass and the name is free, creation fails iff the name is longer than 255 UTF-16 code units or the price is below a cent, and such a failure is the store's constraint refusal |
| ProductoService.HalfCentPassesServiceCheck | productos/src/main/java/com/pruebatec/productos/service/impl/ProductoServiceImpl.java:101-109 | a request named "Lapiz" priced 0.005 passes the service's checks, and the entity built from it breaks only the price constraint |
| ProductoService.HalfCentPriceRefusedByStore | productos/src/main/java/com/pruebatec/productos/service/impl/ProductoServiceImpl.java:106 | a price of 0.005 passes the service's `> 0` check and is refused only by the entity's `>= 0.01` constraint: no row is written but the sequence value drawn for it is lost |
| ProductoService.CreateThenDuplicate | productos/src/main/java/com/pruebatec/productos/service/impl/ProductoServiceImpl.java:70-73 | after a successful create, a second request whose name differs only in case is refused as a duplicate and writes nothing |
| ProductoService.ProductoRepository.FindByActivoOrderById | productos/src/main/java/com/pruebatec/productos/repository/ProductoRepository.java:23 | the rows of the current table with that flag, in id order |
| ProductoService.ProductoRepository.FindByIdAndActivo | productos/src/main/java/com/pruebatec/productos/repository/ProductoRepository.java:29 | the row of the current table with that id and flag, if any |
| ProductoService.ProductoRepository.ExistsByNombreIgnoreCaseAndActivo | productos/src/main/java/com/pruebatec/productos/repository/ProductoRepository.java:35 | whether a row with that flag has the name ignoring case; a null name matches nothing |
| ProductoService.AccentedNamesClash | productos/src/main/java/com/pruebatec/productos/repository/ProductoRepository.java:35 | an active "lápiz" makes the name "LÁPIZ" count as taken |
| ProductoService.ProductoRepository.Save | productos/src/main/java/com/pruebatec/productos/service/impl/ProductoServiceImpl.java:85 | answer and new table are those of `Insertar` on the object's old row; the object itself ends stamped and holds the drawn id, even when the insert is refused |
| ProductoService.ProductoRepository.constructor | productos/src/main/java/com/pruebatec/productos/repository/ProductoRepository.java:17 | a new repository holds the empty table and satisfies the table invariant |
| ProductoService.ProductoServiceImpl.ObtenerTodosLosProductos | productos/src/main/java/com/pruebatec/productos/service/impl/ProductoServiceImpl.java:27-40 | the result is `Listar` of the repository's table |
| ProductoService.ProductoServiceImpl.ObtenerProductoPorId | productos/src/main/java/com/pruebatec/productos/service/impl/ProductoServiceImpl.java:42-60 | the result is `ObtenerPorId` on the repository's table |
| ProductoService.ProductoServiceImpl.CrearProducto | productos/src/main/java/com/pruebatec/productos/service/impl/ProductoServiceImpl.java:62-91 | answer and new table are those of `Crear`; the table invariant is kept |

## Left out

- The HTTP layer is not modelled: the controllers, request binding, `@Valid` before the service is reached, and the controller's status choice by searching an exception's message for "conectar". The model starts where the service methods are called.
- The network client `ProductoClient` and its `RestTemplate` configuration are not modelled. Only its observable outcome per call is kept, as a `CatalogAnswer` parameter; the message of a failure is whatever the client raised.
- The database layer is not modelled: connection failover, the connection logger, generated queries (replaced by the table values and repository classes), and the `existsByProductoId` query, which the service never calls.
- Logging and console output are not modelled.
- Lombok-generated code and Swagger metadata are not modelled.
- The plain JSON DTOs used by the client (`ProductoData`, `ProductoAttributes`, `ProductoApiResponse`, `ProductoIndividualResponse`) carry no logic and are not modelled. The inventory `Meta` DTO is not modelled either.
- InventarioService.InventarioError.Message: gives no text for `RestriccionViolada`, the framework's `ConstraintViolationException`, because its exact message is produced by the validation library.
- Clock reads (`LocalDateTime.now()`) are an instant parameter `ahora`. `crearProducto` and `@PrePersist` read the clock four times; the model uses one reading per call, so the creation and update dates are equal. The `ApiResponse` timestamp is left out.
- Transactions and concurrency are not modelled. A failed save writes no row, which is the effect of the `@Transactional` rollback; a sequence value drawn for a refused insert is not given back, as database sequences are not transactional. Races on the same product id are not modelled.
- `BigDecimal` scale and the `doubleValue()` conversion are not modelled. Prices are exact rationals, and the service's price test is modelled as the exact comparison `> 0`.
- Strings are sequences of Unicode scalar values. Length limits count UTF-16 code units, as Java's `length()` and `@Size` do: a character above U+FFFF counts twice. `trim()` removes characters up to U+0020.
- ProductoService.ProductoRepository.ExistsByNombreIgnoreCaseAndActivo: case is folded for the Latin-1 letters only (ASCII, the accented letters, ñ, µ and ÿ), which covers Spanish. Greek, Cyrillic and other scripts, and foldings that change length such as ß to SS, are not modelled; the database's `UPPER` also depends on its collation.
- InventarioStore.Persist: an entity whose client-supplied id names no record is inserted with a fresh id, which is what Hibernate before 6.6 does. Hibernate 6.6 and later refuse it with an `OptimisticLockException`. The build files that fix the version are not part of this model.
- The order in which Bean Validation reports violations is unspecified. The model lists them field by field, name first.
- The JPA merge path of `save` is not modelled: a product entity with a client-supplied id is never saved. `ProductoRepository.Save` requires a new entity, which is the only kind `crearProducto` builds.
- Nulls the service never passes are not modelled: a null `tipoError`, a null list of field errors, or a null error code or title. The ids and purchase amount of the inventory service's write methods are non-null `Long`/`Integer`.
- The inventory page comes from the repository as a given value. Its paging and ordering are the repository's and are not modelled.
- `obtenerTodosLosInventarios` returns the records in no promised order; the model fixes none.
- `handleTypeMismatch`: the required type's simple name, which comes from reflection, is a string parameter.
