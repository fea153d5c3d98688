/**
 * The `Producto` entity: a mutable object filled by setters, stamped by its
 * JPA lifecycle callbacks, and stored as one row of `productos`. A date is an
 * instant read from the clock, passed in as a number.
 */
module ProductoEntity {
  import opened Wrappers
  import opened ProductoConstraints

  const ACTIVO := "Y"

  /** A snapshot of a product's columns (what a row of the table holds). */
  datatype ProductoRow = ProductoRow(
    id: Option<int>,
    nombre: Option<string>,
    precio: Option<real>,
    descripcion: Option<string>,
    fechaCreacion: Option<int>,
    fechaActualizacion: Option<int>,
    activo: Option<string>)

  /** The entity's violations, name first. */
  function RowViolations(row: ProductoRow): (v: seq<string>)
    ensures v == [] <==> NombreViolations(row.nombre) == [] && PrecioViolations(row.precio) == []
  {
    NombreViolations(row.nombre) + PrecioViolations(row.precio)
  }

  /**
   * What `@PrePersist` does to a product: both dates are stamped with the same
   * instant, and `activo` defaults to "Y" only when it is null (an "N" stays).
   */
  function Stamped(row: ProductoRow, ahora: int): (r: ProductoRow)
    ensures r.fechaCreacion == Some(ahora) && r.fechaActualizacion == Some(ahora)
    ensures row.activo.None? ==> r.activo == Some(ACTIVO)
    ensures row.activo.Some? ==> r.activo == row.activo
    ensures r.id == row.id && r.nombre == row.nombre && r.precio == row.precio && r.descripcion == row.descripcion
  {
    row.(fechaCreacion := Some(ahora), fechaActualizacion := Some(ahora),
         activo := if row.activo.None? then Some(ACTIVO) else row.activo)
  }

  predicate IsActivo(row: ProductoRow) {
    row.activo == Some(ACTIVO)
  }

  class Producto {
    var id: Option<int>
    var nombre: Option<string>
    var precio: Option<real>
    var descripcion: Option<string>
    var fechaCreacion: Option<int>
    var fechaActualizacion: Option<int>
    var activo: Option<string>

    function Row(): ProductoRow
      reads this
    {
      ProductoRow(id, nombre, precio, descripcion, fechaCreacion, fechaActualizacion, activo)
    }

    function Violations(): (v: seq<string>)
      reads this
      ensures v == RowViolations(Row())
    {
      NombreViolations(nombre) + PrecioViolations(precio)
    }

    /** The no-argument constructor: everything null except `activo`, whose field initializer is "Y". */
    constructor Empty()
      ensures Row() == ProductoRow(None, None, None, None, None, None, Some(ACTIVO))
    {
      id := None;
      nombre := None;
      precio := None;
      descripcion := None;
      fechaCreacion := None;
      fechaActualizacion := None;
      activo := Some(ACTIVO);
    }

    /** The constructor for a new product: no id and no dates yet, active. */
    constructor (nombre: Option<string>, precio: Option<real>, descripcion: Option<string>)
      ensures Row() == ProductoRow(None, nombre, precio, descripcion, None, None, Some(ACTIVO))
    {
      this.id := None;
      this.nombre := nombre;
      this.precio := precio;
      this.descripcion := descripcion;
      this.fechaCreacion := None;
      this.fechaActualizacion := None;
      this.activo := Some(ACTIVO);
    }

    /** `@PrePersist`. */
    method OnCreate(ahora: int)
      modifies this
      ensures Row() == Stamped(old(Row()), ahora)
    {
      fechaCreacion := Some(ahora);
      fechaActualizacion := Some(ahora);
      if activo.None? {
        activo := Some(ACTIVO);
      }
    }

    /** `@PreUpdate`: only the update date moves. */
    method OnUpdate(ahora: int)
      modifies this
      ensures Row() == old(Row()).(fechaActualizacion := Some(ahora))
    {
      fechaActualizacion := Some(ahora);
    }
  }

  /** `ProductoResponseDto`: the columns of a product as the API returns them. */
  datatype ProductoResponseDto = ProductoResponseDto(
    id: Option<int>,
    nombre: Option<string>,
    precio: Option<real>,
    descripcion: Option<string>,
    fechaCreacion: Option<int>,
    fechaActualizacion: Option<int>,
    activo: Option<string>)

  /** The mapping constructor of `ProductoResponseDto`: every column is carried over, so no two rows map alike. */
  function ToResponse(row: ProductoRow): (d: ProductoResponseDto)
    ensures d.id == row.id && d.nombre == row.nombre && d.precio == row.precio
    ensures d.descripcion == row.descripcion && d.activo == row.activo
    ensures d.fechaCreacion == row.fechaCreacion && d.fechaActualizacion == row.fechaActualizacion
  {
    ProductoResponseDto(row.id, row.nombre, row.precio, row.descripcion,
                        row.fechaCreacion, row.fechaActualizacion, row.activo)
  }

  lemma ToResponseInjective(a: ProductoRow, b: ProductoRow)
    requires ToResponse(a) == ToResponse(b)
    ensures a == b
  {
  }
}
