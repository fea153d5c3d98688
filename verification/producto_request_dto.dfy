/** `ProductoRequestDto`: the body of a create request, checked by `@Valid` before it reaches the service. */
module ProductoRequest {
  import opened Wrappers
  import opened JavaText
  import opened ProductoConstraints

  datatype ProductoRequestDto = ProductoRequestDto(nombre: Option<string>, precio: Option<real>, descripcion: Option<string>)

  /** The request's violations, name first; the description carries no constraint. */
  function Violations(request: ProductoRequestDto): (v: seq<string>)
    ensures v == [] <==>
      && request.nombre.Some? && !IsBlank(request.nombre.value) && Utf16Length(request.nombre.value) <= 255
      && request.precio.Some? && request.precio.value >= 0.01
    ensures |v| <= 3
  {
    NombreViolations(request.nombre) + PrecioViolations(request.precio)
  }

  predicate IsValid(request: ProductoRequestDto) {
    Violations(request) == []
  }

  /** The name and price checks are independent: a request with neither has exactly two violations. */
  lemma BothMissingTwoViolations(descripcion: Option<string>)
    ensures Violations(ProductoRequestDto(None, None, descripcion)) == [NOMBRE_OBLIGATORIO, PRECIO_OBLIGATORIO]
  {
  }

  /** Whatever the description (null, empty or long), validity is decided by name and price alone. */
  lemma DescripcionUnconstrained(request: ProductoRequestDto, descripcion: Option<string>)
    ensures Violations(request.(descripcion := descripcion)) == Violations(request)
  {
  }

  /** A 255-character name is valid and a 256-character one is not. */
  lemma NombreLengthExamples()
    ensures IsValid(ProductoRequestDto(Some(seq(255, _ => 'a')), Some(1.0), None))
    ensures !IsValid(ProductoRequestDto(Some(seq(256, _ => 'a')), Some(1.0), None))
  {
    var s255: string := seq(255, _ => 'a');
    var s256: string := seq(256, _ => 'a');
    Utf16LengthOfRepeat('a', 255);
    Utf16LengthOfRepeat('a', 256);
    assert !IsTrimmed(s255[0]) && !IsTrimmed(s256[0]);
    BlankIffAllTrimmed(s255);
    BlankIffAllTrimmed(s256);
  }
}
