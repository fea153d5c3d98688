/**
 * `ProductoServiceImpl` over the `productos` table: listing the active
 * products, looking one up by id, and creating one after checking the request
 * and the uniqueness of its name among active products.
 */
module ProductoService {
  import opened Wrappers
  import opened JavaLang
  import opened JavaText
  import opened ProductoConstraints
  import opened ProductoEntity
  import opened ProductoRequest
  import opened ProductoExceptions

  // ---------------------------------------------------------------------------
  // The table behind ProductoRepository

  /** The table's rows in id order, and the next value of the `seq_productos` sequence. */
  datatype Tabla = Tabla(productos: seq<ProductoRow>, siguienteId: int)

  const Vacia := Tabla([], 1)

  /** Every id is present, and ids strictly increase along the sequence. */
  predicate Ascending(rows: seq<ProductoRow>) {
    && (forall i | 0 <= i < |rows| :: rows[i].id.Some?)
    && (forall i, j | 0 <= i < j < |rows| :: rows[i].id.value < rows[j].id.value)
  }

  /** What the table guarantees at every commit: ordered ids already drawn, and only valid rows. */
  predicate Invariant(t: Tabla) {
    && t.siguienteId >= 1
    && Ascending(t.productos)
    && (forall i | 0 <= i < |t.productos| :: 1 <= t.productos[i].id.value < t.siguienteId)
    && (forall i | 0 <= i < |t.productos| :: RowViolations(t.productos[i]) == [])
  }

  /** `findByActivoOrderById(activo)`: the rows with that flag, in table (id) order. */
  function PorActivo(rows: seq<ProductoRow>, activo: string): (r: seq<ProductoRow>)
    ensures |r| <= |rows|
    ensures forall x :: x in r <==> x in rows && x.activo == Some(activo)
    decreases |rows|
  {
    if rows == [] then []
    else
      var rest := PorActivo(rows[1..], activo);
      assert forall x :: x in rows <==> x == rows[0] || x in rows[1..];
      if rows[0].activo == Some(activo) then [rows[0]] + rest else rest
  }

  lemma AscendingTail(rows: seq<ProductoRow>)
    requires Ascending(rows) && rows != []
    ensures Ascending(rows[1..])
    ensures forall x | x in rows[1..] :: rows[0].id.value < x.id.value
  {
    var tail := rows[1..];
    forall i, j | 0 <= i < j < |tail| ensures tail[i].id.value < tail[j].id.value {
      assert tail[i] == rows[i + 1] && tail[j] == rows[j + 1];
    }
    forall x | x in tail ensures rows[0].id.value < x.id.value {
      var m :| 0 <= m < |tail| && tail[m] == x;
      assert x == rows[m + 1];
    }
  }

  lemma ConsAscending(x: ProductoRow, rest: seq<ProductoRow>)
    requires Ascending(rest) && x.id.Some?
    requires forall k | 0 <= k < |rest| :: x.id.value < rest[k].id.value
    ensures Ascending([x] + rest)
  {
    var r := [x] + rest;
    forall i, j | 0 <= i < j < |r| ensures r[i].id.value < r[j].id.value {
      if i == 0 {
        assert r[j] == rest[j - 1];
      } else {
        assert r[i] == rest[i - 1] && r[j] == rest[j - 1];
      }
    }
  }

  /** Filtering keeps the id order. */
  lemma {:induction false} PorActivoAscending(rows: seq<ProductoRow>, activo: string)
    requires Ascending(rows)
    ensures Ascending(PorActivo(rows, activo))
    decreases |rows|
  {
    if rows != [] {
      var tail := rows[1..];
      AscendingTail(rows);
      PorActivoAscending(tail, activo);
      var rest := PorActivo(tail, activo);
      if rows[0].activo == Some(activo) {
        forall k | 0 <= k < |rest| ensures rows[0].id.value < rest[k].id.value {
          assert rest[k] in tail;
        }
        ConsAscending(rows[0], rest);
        assert PorActivo(rows, activo) == [rows[0]] + rest;
      } else {
        assert PorActivo(rows, activo) == rest;
      }
    }
  }

  /** `findByIdAndActivo(id, activo)`. */
  function BuscarPorIdYActivo(rows: seq<ProductoRow>, id: int, activo: string): (r: Option<ProductoRow>)
    ensures r.Some? <==> exists i :: 0 <= i < |rows| && rows[i].id == Some(id) && rows[i].activo == Some(activo)
    ensures r.Some? ==> r.value in rows && r.value.id == Some(id) && r.value.activo == Some(activo)
    decreases |rows|
  {
    if rows == [] then None
    else if rows[0].id == Some(id) && rows[0].activo == Some(activo) then Some(rows[0])
    else
      var r := BuscarPorIdYActivo(rows[1..], id, activo);
      assert forall i :: 1 <= i < |rows| ==> rows[i] == rows[1..][i - 1];
      r
  }

  /** `existsByNombreIgnoreCaseAndActivo(nombre, activo)`: a null name matches nothing. */
  predicate ExisteNombre(rows: seq<ProductoRow>, nombre: Option<string>, activo: string) {
    && nombre.Some?
    && exists i :: 0 <= i < |rows| && rows[i].activo == Some(activo) && rows[i].nombre.Some?
                   && EqualsIgnoreCase(rows[i].nombre.value, nombre.value)
  }

  /** Names that differ only in the case of accented letters clash: an active "lápiz" blocks "LÁPIZ". */
  lemma AccentedNamesClash(rows: seq<ProductoRow>, i: int)
    requires 0 <= i < |rows| && rows[i].activo == Some(ACTIVO) && rows[i].nombre == Some("l\U{E1}piz")
    ensures ExisteNombre(rows, Some("L\U{C1}PIZ"), ACTIVO)
  {
    assert ToUpper("l\U{E1}piz") == "L\U{C1}PIZ" == ToUpper("L\U{C1}PIZ");
  }

  /**
   * `save` of a new product: `@PrePersist` stamps it and the next value of the
   * sequence is drawn for its id; Bean Validation, which runs only when the
   * insert is flushed, may then refuse it. A refusal writes no row, but the
   * drawn sequence value is not given back. Otherwise the row goes at the end
   * of the table.
   */
  function Insertar(t: Tabla, entidad: ProductoRow, ahora: int): (o: (Result<ProductoRow, seq<string>>, Tabla))
    ensures RowViolations(Stamped(entidad, ahora)) != [] ==>
      o == (Failure(RowViolations(Stamped(entidad, ahora))), t.(siguienteId := t.siguienteId + 1))
    ensures RowViolations(Stamped(entidad, ahora)) == [] ==>
      && o.0 == Success(Stamped(entidad, ahora).(id := Some(t.siguienteId)))
      && o.1 == Tabla(t.productos + [o.0.value], t.siguienteId + 1)
    ensures Invariant(t) ==> Invariant(o.1)
  {
    var stamped := Stamped(entidad, ahora);
    var violaciones := RowViolations(stamped);
    if violaciones != [] then (Failure(violaciones), t.(siguienteId := t.siguienteId + 1))
    else
      var saved := stamped.(id := Some(t.siguienteId));
      AppendKeepsInvariant(t, saved);
      (Success(saved), Tabla(t.productos + [saved], t.siguienteId + 1))
  }

  lemma AppendKeepsInvariant(t: Tabla, saved: ProductoRow)
    requires saved.id == Some(t.siguienteId) && RowViolations(saved) == []
    ensures Invariant(t) ==> Invariant(Tabla(t.productos + [saved], t.siguienteId + 1))
  {
    if Invariant(t) {
      var n := |t.productos|;
      var rows := t.productos + [saved];
      forall i | 0 <= i < |rows| ensures rows[i].id.Some? && 1 <= rows[i].id.value < t.siguienteId + 1
                                     && RowViolations(rows[i]) == [] {
        if i < n {
          assert rows[i] == t.productos[i];
        }
      }
      forall i, j | 0 <= i < j < |rows| ensures rows[i].id.value < rows[j].id.value {
        assert rows[i] == t.productos[i];
        if j < n {
          assert rows[j] == t.productos[j];
        }
      }
    }
  }

  // ---------------------------------------------------------------------------
  // The service's own logic

  const ID_POSITIVO := "El ID del producto debe ser un número positivo"
  const PRODUCTO_NULO := "El producto no puede ser nulo"

  /** What a create call can end in besides a product. */
  datatype Fallo =
    | Excepcion(excepcion: ProductoException)
    | Restriccion(violaciones: seq<string>)
    | NullPointer

  /** `obtenerTodosLosProductos`: the active products, in id order, one response each. */
  function Listar(t: Tabla): (r: seq<ProductoResponseDto>)
    ensures |r| == |PorActivo(t.productos, ACTIVO)|
    ensures forall i :: 0 <= i < |r| ==> r[i] == ToResponse(PorActivo(t.productos, ACTIVO)[i])
  {
    var activos := PorActivo(t.productos, ACTIVO);
    seq(|activos|, i requires 0 <= i < |activos| => ToResponse(activos[i]))
  }

  /** The listing holds every active product and nothing else, in strictly increasing id order. */
  lemma ListarExactlyTheActive(t: Tabla)
    requires Invariant(t)
    ensures forall row :: row in t.productos && IsActivo(row) ==> ToResponse(row) in Listar(t)
    ensures forall d :: d in Listar(t) ==> d.activo == Some(ACTIVO) && exists row :: row in t.productos && d == ToResponse(row)
    ensures forall i, j :: 0 <= i < j < |Listar(t)| ==> Listar(t)[i].id.value < Listar(t)[j].id.value
  {
    var activos := PorActivo(t.productos, ACTIVO);
    var r := Listar(t);
    forall row | row in t.productos && IsActivo(row) ensures ToResponse(row) in r {
      var k :| 0 <= k < |activos| && activos[k] == row;
      assert r[k] == ToResponse(row);
    }
    forall d | d in r ensures d.activo == Some(ACTIVO) && exists row :: row in t.productos && d == ToResponse(row) {
      var k :| 0 <= k < |r| && r[k] == d;
      assert activos[k] in activos;
    }
    PorActivoAscending(t.productos, ACTIVO);
  }

  /**
   * `obtenerProductoPorId`: a null or non-positive id is refused before the
   * table is read; otherwise only an active product with that id is found.
   */
  function ObtenerPorId(t: Tabla, id: Option<int>): (r: Result<ProductoResponseDto, ProductoException>)
    ensures id.None? || id.value <= 0 ==>
      r == Failure(Validacion(Some("id"), BoxLong(id), Some(ID_POSITIVO)))
    ensures id.Some? && id.value > 0 ==>
      (r.Success? <==> exists i :: 0 <= i < |t.productos| && t.productos[i].id == id && IsActivo(t.productos[i]))
    ensures id.Some? && id.value > 0 && r.Failure? ==> r.error == NoEncontrado(id)
    ensures r.Success? ==>
      exists row :: row in t.productos && row.id == id && IsActivo(row) && r.value == ToResponse(row)
  {
    if id.None? || id.value <= 0 then Failure(Validacion(Some("id"), BoxLong(id), Some(ID_POSITIVO)))
    else
      match BuscarPorIdYActivo(t.productos, id.value, ACTIVO)
      case None => Failure(NoEncontrado(id))
      case Some(producto) => Success(ToResponse(producto))
  }

  /** The refusal of a bad id is the same whatever the table holds. */
  lemma ObtenerPorIdRefusalIgnoresTable(t1: Tabla, t2: Tabla, id: Option<int>)
    requires id.None? || id.value <= 0
    ensures ObtenerPorId(t1, id) == ObtenerPorId(t2, id) && ObtenerPorId(t1, id).error.tipoError == TipoError.VALIDATION_ERROR
  {
  }

  /**
   * `validarProductoRequest`: the first failing check, as the exception it
   * throws; `None` when the request passes. The price test is `> 0`, looser
   * than the `>= 0.01` of the entity.
   */
  function ValidarProductoRequest(request: Option<ProductoRequestDto>): (r: Option<ProductoException>)
    ensures request.None? ==> r == Some(ValidacionMensaje(Some(PRODUCTO_NULO)))
    ensures request.Some? && (request.value.nombre.None? || IsBlank(request.value.nombre.value)) ==>
      r == Some(Validacion(Some("nombre"), BoxString(request.value.nombre), Some(NOMBRE_OBLIGATORIO)))
    ensures (&& request.Some? && request.value.nombre.Some? && !IsBlank(request.value.nombre.value)
             && (request.value.precio.None? || request.value.precio.value <= 0.0)) ==>
      r == Some(Validacion(Some("precio"), BoxDecimal(request.value.precio), Some(PRECIO_MINIMO)))
    ensures r.None? <==>
      && request.Some?
      && request.value.nombre.Some? && !IsBlank(request.value.nombre.value)
      && request.value.precio.Some? && request.value.precio.value > 0.0
    ensures r.Some? ==> r.value.tipoError == TipoError.VALIDATION_ERROR
  {
    if request.None? then Some(ValidacionMensaje(Some(PRODUCTO_NULO)))
    else
      var q := request.value;
      if q.nombre.None? || IsBlank(q.nombre.value) then
        Some(Validacion(Some("nombre"), BoxString(q.nombre), Some(NOMBRE_OBLIGATORIO)))
      else if q.precio.None? || q.precio.value <= 0.0 then
        Some(Validacion(Some("precio"), BoxDecimal(q.precio), Some(PRECIO_MINIMO)))
      else None
  }

  /** The entity `crearProducto` builds from a request, before it is saved. */
  function NuevaEntidad(q: ProductoRequestDto, ahora: int): (row: ProductoRow)
    ensures row.id.None? && row.nombre == q.nombre && row.precio == q.precio && row.descripcion == q.descripcion
    ensures row.activo == Some(ACTIVO) && row.fechaCreacion == Some(ahora) && row.fechaActualizacion == Some(ahora)
  {
    ProductoRow(None, q.nombre, q.precio, q.descripcion, Some(ahora), Some(ahora), Some(ACTIVO))
  }

  /**
   * `crearProducto`. The debug log reads the request's name before anything
   * else, so a null request ends in a `NullPointerException`, never in the
   * validation error of `validarProductoRequest`. Every refusal leaves the
   * table as it was.
   */
  function Crear(t: Tabla, request: Option<ProductoRequestDto>, ahora: int)
    : (o: (Result<ProductoResponseDto, Fallo>, Tabla))
    requires Invariant(t)
    ensures Invariant(o.1)
    ensures o.0.Failure? ==> o.1.productos == t.productos
    ensures o.0.Failure? ==> o.1.siguienteId == if o.0.error.Restriccion? then t.siguienteId + 1 else t.siguienteId
    ensures request.None? ==> o.0 == Failure(NullPointer)
    ensures request.Some? && ValidarProductoRequest(request).Some? ==>
      o.0 == Failure(Excepcion(ValidarProductoRequest(request).value))
    ensures request.Some? && ValidarProductoRequest(request).None? && ExisteNombre(t.productos, request.value.nombre, ACTIVO) ==>
      o.0 == Failure(Excepcion(Duplicado(request.value.nombre)))
    ensures (&& request.Some? && ValidarProductoRequest(request).None?
             && !ExisteNombre(t.productos, request.value.nombre, ACTIVO)
             && RowViolations(NuevaEntidad(request.value, ahora)) != []) ==>
      o == (Failure(Restriccion(RowViolations(NuevaEntidad(request.value, ahora)))), t.(siguienteId := t.siguienteId + 1))
    ensures o.0.Success? <==>
      request.Some? && ProductoRequest.IsValid(request.value) && !ExisteNombre(t.productos, request.value.nombre, ACTIVO)
    ensures o.0.Success? ==>
      var q := request.value;
      var row := ProductoRow(Some(t.siguienteId), q.nombre, q.precio, q.descripcion, Some(ahora), Some(ahora), Some(ACTIVO));
      && o.1 == Tabla(t.productos + [row], t.siguienteId + 1)
      && o.0.value == ToResponse(row)
  {
    if request.None? then (Failure(NullPointer), t)
    else
      match ValidarProductoRequest(request)
      case Some(e) => (Failure(Excepcion(e)), t)
      case None =>
        var q := request.value;
        if ExisteNombre(t.productos, q.nombre, ACTIVO) then (Failure(Excepcion(Duplicado(q.nombre))), t)
        else
          var (r, t') := Insertar(t, NuevaEntidad(q, ahora), ahora);
          if r.Failure? then (Failure(Restriccion(r.error)), t') else (Success(ToResponse(r.value)), t')
  }

  /** A name that passed the service's check is never blank, so the entity can only refuse its length or a sub-cent price. */
  lemma StoreRefusalsAfterServiceCheck(t: Tabla, q: ProductoRequestDto, ahora: int)
    requires Invariant(t)
    requires ValidarProductoRequest(Some(q)).None? && !ExisteNombre(t.productos, q.nombre, ACTIVO)
    ensures Crear(t, Some(q), ahora).0.Failure? <==> Utf16Length(q.nombre.value) > 255 || q.precio.value < 0.01
    ensures Crear(t, Some(q), ahora).0.Failure? ==> Crear(t, Some(q), ahora).0.error.Restriccion?
  {
  }

  /** A request for a product named "Lapiz" at half a cent. */
  const MEDIO_CENTAVO := ProductoRequestDto(Some("Lapiz"), Some(0.005), None)

  /** The half-cent request passes the service's own check, and the entity built from it breaks only the price constraint. */
  lemma HalfCentPassesServiceCheck(ahora: int)
    ensures ValidarProductoRequest(Some(MEDIO_CENTAVO)).None?
    ensures RowViolations(NuevaEntidad(MEDIO_CENTAVO, ahora)) == [PRECIO_MINIMO]
  {
    var nombre := MEDIO_CENTAVO.nombre.value;
    Utf16LengthOfBmp(nombre);
    assert !IsTrimmed(nombre[0]);
    BlankIffAllTrimmed(nombre);
  }

  /**
   * A price of half a cent passes the service's own check and is refused only
   * when the entity is saved: no row is written, but the id drawn for it is
   * lost, so the next product created gets the id after it.
   */
  lemma HalfCentPriceRefusedByStore(t: Tabla, ahora: int)
    requires Invariant(t) && !ExisteNombre(t.productos, MEDIO_CENTAVO.nombre, ACTIVO)
    ensures Crear(t, Some(MEDIO_CENTAVO), ahora) ==
      (Failure(Restriccion([PRECIO_MINIMO])), t.(siguienteId := t.siguienteId + 1))
  {
    HalfCentPassesServiceCheck(ahora);
  }

  /** Once a product is created, a second create whose name differs only in case is refused as a duplicate, writing nothing. */
  lemma CreateThenDuplicate(t: Tabla, q: ProductoRequestDto, q2: ProductoRequestDto, ahora: int, ahora2: int)
    requires Invariant(t)
    requires ProductoRequest.IsValid(q) && !ExisteNombre(t.productos, q.nombre, ACTIVO)
    requires q2.nombre.Some? && EqualsIgnoreCase(q.nombre.value, q2.nombre.value)
    requires ValidarProductoRequest(Some(q2)).None?
    ensures var t1 := Crear(t, Some(q), ahora).1;
      Crear(t1, Some(q2), ahora2) == (Failure(Excepcion(Duplicado(q2.nombre))), t1)
  {
    var t1 := Crear(t, Some(q), ahora).1;
    var k := |t.productos|;
    assert t1.productos[k].activo == Some(ACTIVO) && t1.productos[k].nombre == q.nombre;
    assert ExisteNombre(t1.productos, q2.nombre, ACTIVO);
  }

  // ---------------------------------------------------------------------------
  // The objects

  /** `ProductoRepository`, over one table written in place. */
  class ProductoRepository {
    var productos: seq<ProductoRow>
    var siguienteId: int

    function State(): Tabla
      reads this
    {
      Tabla(productos, siguienteId)
    }

    predicate Valid()
      reads this
    {
      Invariant(State())
    }

    constructor ()
      ensures State() == Vacia && Valid()
    {
      productos := [];
      siguienteId := 1;
    }

    method FindByActivoOrderById(activo: string) returns (r: seq<ProductoRow>)
      ensures r == PorActivo(productos, activo)
    {
      r := PorActivo(productos, activo);
    }

    method FindByIdAndActivo(id: int, activo: string) returns (r: Option<ProductoRow>)
      ensures r == BuscarPorIdYActivo(productos, id, activo)
    {
      r := BuscarPorIdYActivo(productos, id, activo);
    }

    method ExistsByNombreIgnoreCaseAndActivo(nombre: Option<string>, activo: string) returns (r: bool)
      ensures r == ExisteNombre(productos, nombre, activo)
    {
      r := ExisteNombre(productos, nombre, activo);
    }

    /** `save` of a new entity: the object is stamped in place and receives the drawn id, which it keeps even when the insert is refused. */
    method Save(producto: Producto, ahora: int) returns (r: Result<ProductoRow, seq<string>>)
      requires producto.id.None?
      modifies this, producto
      ensures (r, State()) == Insertar(old(State()), old(producto.Row()), ahora)
      ensures r.Success? ==> producto.Row() == r.value
      ensures r.Failure? ==> producto.Row() == Stamped(old(producto.Row()), ahora).(id := Some(old(siguienteId)))
    {
      ghost var t0 := State();
      ghost var stamped := Stamped(producto.Row(), ahora);
      producto.OnCreate(ahora);
      producto.id := Some(siguienteId);
      siguienteId := siguienteId + 1;
      var violaciones := producto.Violations();
      assert violaciones == RowViolations(stamped);
      if violaciones != [] {
        return Failure(violaciones);
      }
      var saved := producto.Row();
      assert saved == stamped.(id := Some(t0.siguienteId));
      productos := productos + [saved];
      r := Success(saved);
    }
  }

  /** `ProductoServiceImpl`, holding its repository; `ahora` is the clock's reading during the call. */
  class ProductoServiceImpl {
    const repositorio: ProductoRepository

    constructor (repositorio: ProductoRepository)
      ensures this.repositorio == repositorio
    {
      this.repositorio := repositorio;
    }

    method ObtenerTodosLosProductos() returns (r: seq<ProductoResponseDto>)
      ensures r == Listar(repositorio.State())
    {
      var productos := repositorio.FindByActivoOrderById(ACTIVO);
      r := seq(|productos|, i requires 0 <= i < |productos| => ToResponse(productos[i]));
    }

    method ObtenerProductoPorId(id: Option<int>) returns (r: Result<ProductoResponseDto, ProductoException>)
      ensures r == ObtenerPorId(repositorio.State(), id)
    {
      if id.None? || id.value <= 0 {
        return Failure(Validacion(Some("id"), BoxLong(id), Some(ID_POSITIVO)));
      }
      var producto := repositorio.FindByIdAndActivo(id.value, ACTIVO);
      if producto.None? {
        return Failure(NoEncontrado(id));
      }
      r := Success(ToResponse(producto.value));
    }

    method CrearProducto(request: Option<ProductoRequestDto>, ahora: int) returns (r: Result<ProductoResponseDto, Fallo>)
      requires repositorio.Valid()
      modifies repositorio
      ensures repositorio.Valid()
      ensures (r, repositorio.State()) == Crear(old(repositorio.State()), request, ahora)
    {
      if request.None? {
        return Failure(NullPointer);
      }
      var invalido := ValidarProductoRequest(request);
      if invalido.Some? {
        return Failure(Excepcion(invalido.value));
      }
      var q := request.value;
      var duplicado := repositorio.ExistsByNombreIgnoreCaseAndActivo(q.nombre, ACTIVO);
      if duplicado {
        return Failure(Excepcion(Duplicado(q.nombre)));
      }
      var producto := new Producto.Empty();
      producto.nombre := q.nombre;
      producto.precio := q.precio;
      producto.descripcion := q.descripcion;
      producto.activo := Some(ACTIVO);
      producto.fechaCreacion := Some(ahora);
      producto.fechaActualizacion := Some(ahora);
      assert producto.Row() == NuevaEntidad(q, ahora);
      ghost var t0 := repositorio.State();
      var guardado := repositorio.Save(producto, ahora);
      assert (guardado, repositorio.State()) == Insertar(t0, NuevaEntidad(q, ahora), ahora);
      if guardado.Failure? {
        return Failure(Restriccion(guardado.error));
      }
      r := Success(ToResponse(guardado.value));
    }
  }
}
