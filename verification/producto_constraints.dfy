/**
 * The Bean Validation constraints shared by the `Producto` entity and the
 * `ProductoRequestDto` request: `@NotBlank` and `@Size(max = 255)` on the
 * name, `@NotNull` and `@DecimalMin("0.01")` on the price. Both classes
 * declare them with the same messages, so they are stated once here.
 */
module ProductoConstraints {
  import opened Wrappers
  import opened JavaText

  const NOMBRE_OBLIGATORIO := "El nombre del producto es obligatorio"
  const NOMBRE_DEMASIADO_LARGO := "El nombre no puede exceder 255 caracteres"
  const PRECIO_OBLIGATORIO := "El precio es obligatorio"
  const PRECIO_MINIMO := "El precio debe ser mayor a 0"

  const NOMBRE_MAX := 255
  const PRECIO_MIN: real := 0.01

  /**
   * The name's violations. `@NotBlank` refuses null and whitespace-only text;
   * `@Size` accepts null and otherwise bounds `length()`, which counts UTF-16
   * code units. Both can fail at once.
   */
  function NombreViolations(nombre: Option<string>): (v: seq<string>)
    ensures (NOMBRE_OBLIGATORIO in v) <==> nombre.None? || IsBlank(nombre.value)
    ensures (NOMBRE_DEMASIADO_LARGO in v) <==> nombre.Some? && Utf16Length(nombre.value) > NOMBRE_MAX
    ensures v == [] <==> nombre.Some? && !IsBlank(nombre.value) && Utf16Length(nombre.value) <= NOMBRE_MAX
    ensures |v| <= 2
  {
    match nombre
    case None => [NOMBRE_OBLIGATORIO]
    case Some(s) =>
      (if IsBlank(s) then [NOMBRE_OBLIGATORIO] else []) + (if Utf16Length(s) > NOMBRE_MAX then [NOMBRE_DEMASIADO_LARGO] else [])
  }

  /** The price's violations: `@NotNull`, then `@DecimalMin`, which is inclusive and accepts null. */
  function PrecioViolations(precio: Option<real>): (v: seq<string>)
    ensures precio.None? ==> v == [PRECIO_OBLIGATORIO]
    ensures precio.Some? && precio.value < PRECIO_MIN ==> v == [PRECIO_MINIMO]
    ensures v == [] <==> precio.Some? && precio.value >= PRECIO_MIN
  {
    match precio
    case None => [PRECIO_OBLIGATORIO]
    case Some(p) => if p < PRECIO_MIN then [PRECIO_MINIMO] else []
  }

  /** A non-blank name is accepted exactly up to 255 UTF-16 code units. */
  lemma NombreLengthBoundary(s: string)
    requires !IsBlank(s)
    ensures NombreViolations(Some(s)) == [] <==> Utf16Length(s) <= 255
  {
  }

  /**
   * The bound is on code units, not characters: 128 copies of U+1F6D2 (a
   * character outside the Basic Multilingual Plane) are refused as too long,
   * while 255 characters of the plane are accepted.
   */
  lemma NombreBoundCountsCodeUnits()
    ensures NombreViolations(Some(seq(128, _ => '\U{1F6D2}'))) == [NOMBRE_DEMASIADO_LARGO]
    ensures NombreViolations(Some(seq(255, _ => '\U{F1}'))) == []
  {
    var astral: string := seq(128, _ => '\U{1F6D2}');
    var enes: string := seq(255, _ => '\U{F1}');
    Utf16LengthOfRepeat('\U{1F6D2}', 128);
    Utf16LengthOfRepeat('\U{F1}', 255);
    assert !IsTrimmed(astral[0]) && !IsTrimmed(enes[0]);
    BlankIffAllTrimmed(astral);
    BlankIffAllTrimmed(enes);
  }

  /** Null, empty and whitespace-only names are all refused as missing. */
  lemma BlankNamesRefused(s: string)
    requires forall i :: 0 <= i < |s| ==> IsTrimmed(s[i])
    ensures NOMBRE_OBLIGATORIO in NombreViolations(Some(s))
    ensures NOMBRE_OBLIGATORIO in NombreViolations(None)
  {
    BlankIffAllTrimmed(s);
  }

  /** The price bound is inclusive: one cent is accepted, zero and anything below a cent are not. */
  lemma PrecioBoundary()
    ensures PrecioViolations(Some(0.01)) == []
    ensures PrecioViolations(Some(0.0)) == [PRECIO_MINIMO]
    ensures PrecioViolations(Some(0.009)) == [PRECIO_MINIMO]
    ensures PrecioViolations(Some(-1.0)) == [PRECIO_MINIMO]
  {
  }
}
