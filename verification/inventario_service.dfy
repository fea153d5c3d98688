/**
 * The write side of `InventarioServiceImpl`: upsert, create after asking the
 * catalog, set a quantity, deduct a purchase and delete. Each operation is
 * first a function from the table (and the catalog's answers) to the outcome
 * and the new table; the service class then performs it step by step on the
 * repository object and is proved to agree with that function.
 *
 * A `RuntimeException` of the source is a `Failure` carrying an
 * `InventarioError`; the table is unchanged whenever a `Failure` is returned.
 */
module InventarioService {
  import opened Wrappers
  import opened JavaLang
  import opened JavaText
  import opened InventarioEntity
  import opened InventarioConProductoDto
  import opened CompraResponseDto
  import opened ProductoCatalog
  import opened InventarioEnrichment
  import opened InventarioStore

  /** The exceptions the service lets escape. */
  datatype InventarioError =
    | InventarioNoEncontrado(productoId: int)
    | ProductoInexistente(productoIdSolicitado: Option<int>)
    | StockInsuficiente(disponible: int, solicitado: int)
    | CatalogoNoDisponible(message: string)
    | RestriccionViolada(rechazo: Rechazo)
  {
    /** The exception's message, for the errors the service itself raises or rethrows. */
    function Message(): (m: string)
      requires !RestriccionViolada?
      ensures CatalogoNoDisponible? ==> m == message
    {
      match this
      case InventarioNoEncontrado(p) => "No se encontró inventario para el producto ID: " + IntToString(p)
      case ProductoInexistente(p) => SIN_CREAR + (PRODUCTO_ID + FormatLong(p) + NO_EXISTE)
      case StockInsuficiente(d, s) => STOCK_INSUFICIENTE + DISPONIBLE + IntToString(d) + SOLICITADO + IntToString(s)
      case CatalogoNoDisponible(m) => m
    }
  }

  const SIN_CREAR := "No se puede crear inventario: "
  const PRODUCTO_ID := "el producto ID "
  const NO_EXISTE := " no existe"
  const STOCK_INSUFICIENTE := "Stock insuficiente. "
  const DISPONIBLE := "Disponible: "
  const SOLICITADO := ", Solicitado: "

  /** The outcome of an operation and the table it leaves behind. */
  type Outcome<T> = (Result<T, InventarioError>, Store)

  /** A refused save becomes the error the service propagates. */
  function Refused<T>(rechazo: Rechazo, s: Store): (o: Outcome<T>)
    ensures o == (Failure(RestriccionViolada(rechazo)), s)
  {
    (Failure(RestriccionViolada(rechazo)), s)
  }

  // ---------------------------------------------------------------------------
  // guardarInventario

  /**
   * `guardarInventario`: when the product id already has a record, only its
   * quantity is overwritten and its id is kept. Otherwise the entity as given
   * is saved: without an id, or with an id that names no record, it is
   * inserted under the next sequence value, which a refused insert still
   * consumes; with the id of another product's record, that record is merged
   * into and moves to this product.
   */
  function Guardar(s: Store, inventario: Inventario): (o: Outcome<Inventario>)
    requires Invariant(s)
    ensures Invariant(o.1)
    ensures o.0.Success? <==> IsValid(inventario)
    ensures o.0.Failure? ==> o.0 == Failure(RestriccionViolada(Invalida(Violations(inventario))))
    ensures o.0.Failure? ==> o.1.registros == s.registros
    ensures o.1.siguienteId ==
      if Lookup(s, inventario.productoId).None? && !Fusiona(s, inventario) then s.siguienteId + 1 else s.siguienteId
    ensures o.0.Success? ==>
      var p := inventario.productoId.value;
      && o.0.value.productoId == inventario.productoId && o.0.value.cantidad == inventario.cantidad
      && p in o.1.registros && o.1.registros[p] == o.0.value
    ensures o.0.Success? && inventario.productoId.value in s.registros ==>
      var p := inventario.productoId.value;
      && o.0.value == s.registros[p].(cantidad := inventario.cantidad)
      && o.1.registros == s.registros[p := o.0.value]
    ensures o.0.Success? && inventario.productoId.value !in s.registros && !Fusiona(s, inventario) ==>
      && o.0.value == inventario.(id := Some(s.siguienteId))
      && o.1.registros == s.registros[inventario.productoId.value := o.0.value]
    ensures o.0.Success? && inventario.productoId.value !in s.registros && Fusiona(s, inventario) ==>
      var q := ClaveDeId(s, inventario.id.value).value;
      && o.0.value == inventario
      && o.1.registros == (s.registros - {q})[inventario.productoId.value := inventario]
  {
    var existente := Lookup(s, inventario.productoId);
    if existente.Some? then
      var p := inventario.productoId.value;
      ClaveDeStored(s, p);
      var actualizado := existente.value.(cantidad := inventario.cantidad);
      assert Violations(actualizado) == Violations(inventario) by {
        assert Stored(s, p);
      }
      var (r, s') := Persist(s, actualizado);
      if r.Failure? then Refused(r.error, s') else (Success(r.value), s')
    else
      var (r, s') := Persist(s, inventario);
      if r.Failure? then Refused(r.error, s') else (Success(r.value), s')
  }

  /**
   * Applying the same upsert twice gives the same answer and the same records
   * as applying it once; after a success the whole table is the same, while a
   * refused insert consumes one more sequence value each time.
   */
  lemma GuardarIdempotent(s: Store, inventario: Inventario)
    requires Invariant(s)
    ensures var (r1, s1) := Guardar(s, inventario);
      var (r2, s2) := Guardar(s1, inventario);
      && r2 == r1 && s2.registros == s1.registros
      && (r1.Success? ==> s2 == s1)
      && (r1.Failure? ==> s2.siguienteId - s1.siguienteId == s1.siguienteId - s.siguienteId)
  {
    var (r, s1) := Guardar(s, inventario);
    if r.Success? {
      var p := inventario.productoId.value;
      assert r.value.(cantidad := inventario.cantidad) == r.value;
      PersistStoredIsNoOp(s1, p);
    } else if inventario.id.Some? {
      var i := inventario.id.value;
      var q0 := ClaveDeId(s, i);
      var q1 := ClaveDeId(s1, i);
      assert q0.Some? <==> q1.Some?;
      if q0.Some? {
        assert s.registros[q0.value].id == s.registros[q1.value].id;
      }
    }
  }

  /**
   * A client-supplied id that names another product's record takes that record
   * over: upserting a product that has no record, with the id of product
   * `q`'s record, moves the record to the new product and leaves `q` without
   * one; no sequence value is drawn.
   */
  lemma ClientIdTakesOverAnotherRecord(s: Store, q: int, p: int, cantidad: Int32)
    requires Invariant(s) && q in s.registros && p !in s.registros && p >= 1 && cantidad >= 0
    ensures var inventario := Inventario(s.registros[q].id, Some(p), Some(cantidad));
      var o := Guardar(s, inventario);
      && o.0 == Success(inventario)
      && o.1.registros.Keys == s.registros.Keys - {q} + {p}
      && o.1.registros[p].id == s.registros[q].id
      && o.1.siguienteId == s.siguienteId
  {
    ClaveDeStored(s, q);
  }

  // ---------------------------------------------------------------------------
  // crearInventarioConValidacion

  /**
   * `crearInventarioConValidacion`: `existencia` is the catalog's answer to the
   * existence check, `consulta` its answer to the lookup made for the view
   * after the write. A failing existence check is rethrown as it came and an
   * absent product is refused, both before anything is written.
   */
  function CrearConValidacion(s: Store, inventario: Inventario, existencia: CatalogAnswer, consulta: CatalogAnswer)
    : (o: Outcome<InventarioConProductoDTO>)
    requires Invariant(s)
    ensures Invariant(o.1)
    ensures existencia.Unavailable? ==> o == (Failure(CatalogoNoDisponible(existencia.message)), s)
    ensures existencia.NotFound? ==> o == (Failure(ProductoInexistente(inventario.productoId)), s)
    ensures existencia.Found? ==> o.1 == Guardar(s, inventario).1
    ensures existencia.Found? && !IsValid(inventario) ==>
      o.0 == Failure(RestriccionViolada(Invalida(Violations(inventario))))
    ensures o.0.Success? <==> existencia.Found? && IsValid(inventario)
    ensures o.0.Success? ==>
      && ShowsRecord(o.0.value, Guardar(s, inventario).0.value)
      && ShowsAnswer(o.0.value, consulta)
      && Derived(o.0.value)
  {
    match ExisteProducto(existencia)
    case Failure(m) => (Failure(CatalogoNoDisponible(m)), s)
    case Success(existe) =>
      if !existe then (Failure(ProductoInexistente(inventario.productoId)), s)
      else
        var (r, s') := Guardar(s, inventario);
        if r.Failure? then (Failure(r.error), s')
        else
          var vista := ObtenerInventarioCompleto(s'.registros, r.value.productoId.value, consulta);
          (Success(vista.value), s')
  }

  /** The refusal names the product id that does not exist. */
  lemma ProductoInexistenteMessage(productoId: Option<int>)
    ensures Contains(ProductoInexistente(productoId).Message(), PRODUCTO_ID + FormatLong(productoId) + NO_EXISTE)
  {
    var detalle := PRODUCTO_ID + FormatLong(productoId) + NO_EXISTE;
    assert ProductoInexistente(productoId).Message() == SIN_CREAR + detalle + "";
    ContainsMiddle(SIN_CREAR, detalle, "");
  }

  // ---------------------------------------------------------------------------
  // actualizarCantidad

  /**
   * `actualizarCantidad`: exactly the quantity of the record of that product
   * id is replaced; no other record and no id changes.
   */
  function Actualizar(s: Store, productoId: int, nuevaCantidad: Option<Int32>): (o: Outcome<Inventario>)
    requires Invariant(s)
    ensures Invariant(o.1)
    ensures productoId !in s.registros ==> o == (Failure(InventarioNoEncontrado(productoId)), s)
    ensures productoId in s.registros ==>
      (o.0.Success? <==> nuevaCantidad.Some? && nuevaCantidad.value >= 0)
    ensures o.0.Failure? ==> o.1 == s
    ensures o.0.Success? ==>
      && o.0.value == s.registros[productoId].(cantidad := nuevaCantidad)
      && o.1 == Store(s.registros[productoId := o.0.value], s.siguienteId)
  {
    match Lookup(s, Some(productoId))
    case None => (Failure(InventarioNoEncontrado(productoId)), s)
    case Some(inventario) =>
      ClaveDeStored(s, productoId);
      var (r, s') := Persist(s, inventario.(cantidad := nuevaCantidad));
      if r.Failure? then Refused(r.error, s') else (Success(r.value), s')
  }

  /** The not-found message ends with the product id, which can be read back from it. */
  lemma NoEncontradoMessage(productoId: int)
    ensures var prefijo := "No se encontró inventario para el producto ID: ";
      var m := InventarioNoEncontrado(productoId).Message();
      && |prefijo| <= |m| && m[..|prefijo|] == prefijo
      && IsDecimal(m[|prefijo|..]) && ParseInt(m[|prefijo|..]) == productoId
  {
    var prefijo := "No se encontró inventario para el producto ID: ";
    var m := InventarioNoEncontrado(productoId).Message();
    assert m[|prefijo|..] == IntToString(productoId);
    IntToStringRoundTrip(productoId);
  }

  // ---------------------------------------------------------------------------
  // reducirCantidadPorCompra

  /** The product name a purchase summary shows: the catalog's when it has the product, a placeholder otherwise. */
  function NombreCompra(productoId: int, consulta: CatalogAnswer): (n: Option<string>)
    ensures consulta.Found? ==> n == consulta.producto.nombre
    ensures !consulta.Found? ==> n == Some("Producto ID " + IntToString(productoId))
  {
    match consulta
    case Found(producto) => producto.nombre
    case _ => Some("Producto ID " + IntToString(productoId))
  }

  /**
   * `reducirCantidadPorCompra`: `consulta` is the catalog's answer to the name
   * lookup made after the write. The requested amount is not checked for
   * sign, and the remaining stock is computed in 32-bit `int` arithmetic.
   */
  function Reducir(s: Store, productoId: int, cantidadComprada: Int32, consulta: CatalogAnswer)
    : (o: Outcome<CompraResponse>)
    requires Invariant(s)
    ensures Invariant(o.1)
    ensures productoId !in s.registros ==> o == (Failure(InventarioNoEncontrado(productoId)), s)
    ensures productoId in s.registros && s.registros[productoId].cantidad.value < cantidadComprada ==>
      o == (Failure(StockInsuficiente(s.registros[productoId].cantidad.value, cantidadComprada)), s)
    ensures productoId in s.registros && s.registros[productoId].cantidad.value >= cantidadComprada ==>
      var stock := s.registros[productoId].cantidad.value;
      (o.0.Success? <==> stock - cantidadComprada <= INT_MAX)
    ensures o.0.Failure? ==> o.1 == s
    ensures o.0.Success? ==>
      var inventario := s.registros[productoId];
      var restante := inventario.cantidad.value - cantidadComprada;
      && 0 <= restante
      && o.1 == Store(s.registros[productoId := inventario.(cantidad := Some(restante))], s.siguienteId)
      && o.0.value.inventarioId == inventario.id
      && o.0.value.productoId == Some(productoId)
      && o.0.value.nombreProducto == NombreCompra(productoId, consulta)
      && o.0.value.cantidadComprada == Some(cantidadComprada as int)
      && o.0.value.cantidadRestante == Some(restante)
      && o.0.value.estadoCompra == "EXITOSA"
  {
    match Lookup(s, Some(productoId))
    case None => (Failure(InventarioNoEncontrado(productoId)), s)
    case Some(inventario) =>
      assert Stored(s, productoId);
      var stock := inventario.cantidad.value;
      if stock < cantidadComprada then (Failure(StockInsuficiente(stock, cantidadComprada)), s)
      else
        var restante := Wrap32(stock - cantidadComprada);
        ClaveDeStored(s, productoId);
        var (r, s') := Persist(s, inventario.(cantidad := Some(restante)));
        if r.Failure? then Refused(r.error, s')
        else
          (Success(NewCompraResponse(r.value.id, Some(productoId), NombreCompra(productoId, consulta),
                                     Some(cantidadComprada as int), Some(restante as int))), s')
  }

  /** Refusing a purchase for lack of stock reports both amounts. */
  lemma StockInsuficienteMessage(disponible: int, solicitado: int)
    ensures Contains(StockInsuficiente(disponible, solicitado).Message(), "Disponible: " + IntToString(disponible))
    ensures Contains(StockInsuficiente(disponible, solicitado).Message(), "Solicitado: " + IntToString(solicitado))
  {
    var d := IntToString(disponible);
    var q := IntToString(solicitado);
    var m := StockInsuficiente(disponible, solicitado).Message();
    assert m == STOCK_INSUFICIENTE + (DISPONIBLE + d) + (SOLICITADO + q);
    ContainsMiddle(STOCK_INSUFICIENTE, DISPONIBLE + d, SOLICITADO + q);
    assert SOLICITADO == ", " + "Solicitado: ";
    assert m == (STOCK_INSUFICIENTE + DISPONIBLE + d + ", ") + ("Solicitado: " + q) + "";
    ContainsMiddle(STOCK_INSUFICIENTE + DISPONIBLE + d + ", ", "Solicitado: " + q, "");
  }

  /** When the deduction is refused, or there is no record, the catalog's answer plays no part. */
  lemma ReducirFailureIgnoresCatalog(s: Store, productoId: int, cantidadComprada: Int32, a: CatalogAnswer, b: CatalogAnswer)
    requires Invariant(s)
    requires Reducir(s, productoId, cantidadComprada, a).0.Failure?
    ensures Reducir(s, productoId, cantidadComprada, a) == Reducir(s, productoId, cantidadComprada, b)
  {
  }

  /**
   * Once written, the deduction stands whatever the catalog answers: the
   * table, the amounts and the record id are the same for every answer.
   */
  lemma ReducirCommitsWhateverTheCatalog(s: Store, productoId: int, cantidadComprada: Int32, a: CatalogAnswer, b: CatalogAnswer)
    requires Invariant(s)
    ensures Reducir(s, productoId, cantidadComprada, a).1 == Reducir(s, productoId, cantidadComprada, b).1
    ensures Reducir(s, productoId, cantidadComprada, a).0.Success? == Reducir(s, productoId, cantidadComprada, b).0.Success?
  {
  }

  /**
   * The purchase amount is not checked: a negative amount passes the stock
   * test and adds to the stock, reported as a successful purchase.
   */
  lemma NegativePurchaseIncreasesStock(s: Store, productoId: int, cantidadComprada: Int32, consulta: CatalogAnswer)
    requires Invariant(s) && productoId in s.registros
    requires cantidadComprada < 0
    requires s.registros[productoId].cantidad.value - cantidadComprada <= INT_MAX
    ensures var o := Reducir(s, productoId, cantidadComprada, consulta);
      && o.0.Success? && o.0.value.estadoCompra == "EXITOSA"
      && o.1.registros[productoId].cantidad.value > s.registros[productoId].cantidad.value
  {
    assert Stored(s, productoId);
  }

  /**
   * A negative amount large enough to take the remaining stock past the
   * 32-bit range wraps to a negative quantity, which the table refuses.
   */
  lemma OverflowingPurchaseRefused(s: Store, productoId: int, consulta: CatalogAnswer)
    requires Invariant(s) && productoId in s.registros
    requires s.registros[productoId].cantidad == Some(10)
    ensures Reducir(s, productoId, INT_MIN, consulta) == (Failure(RestriccionViolada(Invalida([CANTIDAD_NO_NEGATIVA]))), s)
  {
    var inventario := s.registros[productoId];
    var restante := Wrap32(10 - INT_MIN);
    assert restante == 10 - INT_MIN - 0x1_0000_0000;
    assert Violations(inventario.(cantidad := Some(restante))) == [CANTIDAD_NO_NEGATIVA] by {
      assert Stored(s, productoId);
    }
  }

  // ---------------------------------------------------------------------------
  // eliminarInventarioPorProductoId

  /** `eliminarInventarioPorProductoId`: true exactly when there was a record to delete. */
  function Eliminar(s: Store, productoId: int): (o: (bool, Store))
    ensures o.0 <==> productoId in s.registros
    ensures o.1.registros.Keys == s.registros.Keys - {productoId}
    ensures forall q | q in o.1.registros :: o.1.registros[q] == s.registros[q]
    ensures !o.0 ==> o.1 == s
    ensures Invariant(s) ==> Invariant(o.1)
  {
    match Lookup(s, Some(productoId))
    case Some(_) => (true, Remove(s, productoId))
    case None => (false, s)
  }

  /** Deleting twice deletes once: the second call finds nothing and changes nothing. */
  lemma EliminarIdempotent(s: Store, productoId: int)
    ensures var (_, s1) := Eliminar(s, productoId); Eliminar(s1, productoId) == (false, s1)
  {
  }

  // ---------------------------------------------------------------------------
  // Any sequence of operations

  /** One call of a write operation, with the catalog's answers it receives. */
  datatype Operacion =
    | GuardarOp(inventario: Inventario)
    | CrearOp(inventario: Inventario, existencia: CatalogAnswer, consulta: CatalogAnswer)
    | ActualizarOp(productoId: int, nuevaCantidad: Option<Int32>)
    | ReducirOp(productoId: int, cantidadComprada: Int32, consulta: CatalogAnswer)
    | EliminarOp(productoId: int)

  function Aplicar(s: Store, op: Operacion): (s': Store)
    requires Invariant(s)
    ensures Invariant(s')
  {
    match op
    case GuardarOp(inv) => Guardar(s, inv).1
    case CrearOp(inv, e, c) => CrearConValidacion(s, inv, e, c).1
    case ActualizarOp(p, q) => Actualizar(s, p, q).1
    case ReducirOp(p, q, c) => Reducir(s, p, q, c).1
    case EliminarOp(p) => Eliminar(s, p).1
  }

  /** The table after a sequence of calls; every intermediate table keeps the invariant. */
  function Ejecutar(s: Store, ops: seq<Operacion>): (s': Store)
    requires Invariant(s)
    ensures Invariant(s')
    decreases |ops|
  {
    if ops == [] then s else Ejecutar(Aplicar(s, ops[0]), ops[1..])
  }

  /**
   * Starting from the empty table, whatever calls are made, every product id
   * has at most one record and every stored quantity is present and not negative.
   */
  lemma StoredQuantitiesNeverNegative(ops: seq<Operacion>, p: int)
    requires p in Ejecutar(Empty, ops).registros
    ensures Ejecutar(Empty, ops).registros[p].productoId == Some(p)
    ensures Ejecutar(Empty, ops).registros[p].cantidad.Some?
    ensures Ejecutar(Empty, ops).registros[p].cantidad.value >= 0
  {
    assert Stored(Ejecutar(Empty, ops), p);
  }

  // ---------------------------------------------------------------------------
  // The service object

  /** `InventarioServiceImpl`, holding its repository; the catalog's answers are passed per call. */
  class InventarioServiceImpl {
    const repositorio: InventarioRepository

    constructor (repositorio: InventarioRepository)
      ensures this.repositorio == repositorio
    {
      this.repositorio := repositorio;
    }

    /** `obtenerInventarioPorProductoId`. */
    method ObtenerInventarioPorProductoId(productoId: int) returns (r: Option<Inventario>)
      ensures r.Some? <==> productoId in repositorio.registros
      ensures r.Some? ==> r.value == repositorio.registros[productoId]
    {
      r := repositorio.FindByProductoId(Some(productoId));
    }

    /** `obtenerTodosLosInventarios`: the stored records as they are, each product's once. */
    method ObtenerTodosLosInventarios() returns (r: seq<Inventario>)
      ensures |r| == |repositorio.registros|
      ensures forall p | p in repositorio.registros :: repositorio.registros[p] in r
      ensures forall i | 0 <= i < |r| :: r[i] in repositorio.registros.Values
    {
      r := repositorio.FindAll();
    }

    /** `obtenerInventarioCompletoPorProductoId`: the catalog is consulted only when a record exists. */
    method ObtenerInventarioCompletoPorProductoId(productoId: int, consulta: CatalogAnswer)
      returns (r: Option<InventarioConProductoDTO>)
      ensures r.None? <==> productoId !in repositorio.registros
      ensures r.Some? ==>
        ShowsRecord(r.value, repositorio.registros[productoId]) && ShowsAnswer(r.value, consulta) && Derived(r.value)
      ensures r == ObtenerInventarioCompleto(repositorio.registros, productoId, consulta)
    {
      var inventarioOpt := repositorio.FindByProductoId(Some(productoId));
      if inventarioOpt.None? {
        return None;
      }
      ObtenerAgreesWithMapear(repositorio.registros, productoId, consulta);
      r := Some(MapearInventarioCompleto(inventarioOpt.value, consulta));
    }

    method GuardarInventario(inventario: Inventario) returns (r: Result<Inventario, InventarioError>)
      requires repositorio.Valid()
      modifies repositorio
      ensures repositorio.Valid()
      ensures (r, repositorio.State()) == Guardar(old(repositorio.State()), inventario)
    {
      var existente := repositorio.FindByProductoId(inventario.productoId);
      var guardado: Result<Inventario, Rechazo>;
      if existente.Some? {
        assert Stored(repositorio.State(), inventario.productoId.value);
        var actualizado := existente.value;
        actualizado := actualizado.(cantidad := inventario.cantidad);
        guardado := repositorio.Save(actualizado);
      } else {
        guardado := repositorio.Save(inventario);
      }
      if guardado.Failure? {
        return Failure(RestriccionViolada(guardado.error));
      }
      r := Success(guardado.value);
    }

    method CrearInventarioConValidacion(inventario: Inventario, existencia: CatalogAnswer, consulta: CatalogAnswer)
      returns (r: Result<InventarioConProductoDTO, InventarioError>)
      requires repositorio.Valid()
      modifies repositorio
      ensures repositorio.Valid()
      ensures (r, repositorio.State()) == CrearConValidacion(old(repositorio.State()), inventario, existencia, consulta)
    {
      var existe := ExisteProducto(existencia);
      if existe.Failure? {
        return Failure(CatalogoNoDisponible(existe.error));
      }
      if !existe.value {
        return Failure(ProductoInexistente(inventario.productoId));
      }
      var creado := GuardarInventario(inventario);
      if creado.Failure? {
        return Failure(creado.error);
      }
      var resultado := ObtenerInventarioCompletoPorProductoId(creado.value.productoId.value, consulta);
      r := Success(resultado.value);
    }

    method ActualizarCantidad(productoId: int, nuevaCantidad: Option<Int32>)
      returns (r: Result<Inventario, InventarioError>)
      requires repositorio.Valid()
      modifies repositorio
      ensures repositorio.Valid()
      ensures (r, repositorio.State()) == Actualizar(old(repositorio.State()), productoId, nuevaCantidad)
    {
      var inventarioOpt := repositorio.FindByProductoId(Some(productoId));
      if inventarioOpt.None? {
        return Failure(InventarioNoEncontrado(productoId));
      }
      assert Stored(repositorio.State(), productoId);
      var inventario := inventarioOpt.value;
      inventario := inventario.(cantidad := nuevaCantidad);
      var guardado := repositorio.Save(inventario);
      if guardado.Failure? {
        return Failure(RestriccionViolada(guardado.error));
      }
      r := Success(guardado.value);
    }

    method ReducirCantidadPorCompra(productoId: int, cantidadComprada: Int32, consulta: CatalogAnswer)
      returns (r: Result<CompraResponse, InventarioError>)
      requires repositorio.Valid()
      modifies repositorio
      ensures repositorio.Valid()
      ensures (r, repositorio.State()) == Reducir(old(repositorio.State()), productoId, cantidadComprada, consulta)
    {
      var inventarioOpt := repositorio.FindByProductoId(Some(productoId));
      if inventarioOpt.None? {
        return Failure(InventarioNoEncontrado(productoId));
      }
      assert Stored(repositorio.State(), productoId);
      var inventario := inventarioOpt.value;
      if inventario.cantidad.value < cantidadComprada {
        return Failure(StockInsuficiente(inventario.cantidad.value, cantidadComprada));
      }
      var cantidadRestante := Wrap32(inventario.cantidad.value - cantidadComprada);
      inventario := inventario.(cantidad := Some(cantidadRestante));
      var guardado := repositorio.Save(inventario);
      if guardado.Failure? {
        return Failure(RestriccionViolada(guardado.error));
      }
      var nombreProducto := Some("Producto ID " + IntToString(productoId));
      if consulta.Found? {
        nombreProducto := consulta.producto.nombre;
      }
      r := Success(NewCompraResponse(guardado.value.id, Some(productoId), nombreProducto,
                                     Some(cantidadComprada as int), Some(cantidadRestante as int)));
    }

    method EliminarInventarioPorProductoId(productoId: int) returns (eliminado: bool)
      modifies repositorio
      ensures (eliminado, repositorio.State()) == Eliminar(old(repositorio.State()), productoId)
    {
      var inventario := repositorio.FindByProductoId(Some(productoId));
      if inventario.Some? {
        repositorio.Delete(productoId);
        return true;
      }
      return false;
    }
  }
}
