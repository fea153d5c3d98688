/** Java's 32-bit `int` and the boxed values that travel as `Object`. */
module JavaLang {
  import opened Wrappers

  const INT_MIN: int := -0x8000_0000
  const INT_MAX: int := 0x7FFF_FFFF

  /** A Java `int` (or a non-null `Integer`). */
  type Int32 = x: int | -0x8000_0000 <= x < 0x8000_0000

  /** Java `int` arithmetic: the mathematical result reduced into 32 bits, two's complement. */
  function Wrap32(x: int): (r: Int32)
    ensures (x - r) % 0x1_0000_0000 == 0
    ensures INT_MIN <= x <= INT_MAX ==> r == x
    ensures INT_MAX < x < INT_MAX + 0x1_0000_0000 ==> r == x - 0x1_0000_0000
  {
    var m := x % 0x1_0000_0000;
    if m < 0x8000_0000 then m else m - 0x1_0000_0000
  }

  /** A value held in a variable of static type `Object`. */
  datatype JValue =
    | Null
    | LongValue(l: int)
    | StringValue(s: string)
    | DecimalValue(d: real)

  /** Boxing a possibly-null `Long`. */
  function BoxLong(o: Option<int>): (v: JValue)
    ensures v == Null <==> o.None?
    ensures o.Some? ==> v == LongValue(o.value)
  {
    match o
    case None => Null
    case Some(l) => LongValue(l)
  }

  /** Boxing a possibly-null `String`. */
  function BoxString(o: Option<string>): (v: JValue)
    ensures v == Null <==> o.None?
    ensures o.Some? ==> v == StringValue(o.value)
  {
    match o
    case None => Null
    case Some(s) => StringValue(s)
  }

  /** Boxing a possibly-null `BigDecimal`. */
  function BoxDecimal(o: Option<real>): (v: JValue)
    ensures v == Null <==> o.None?
    ensures o.Some? ==> v == DecimalValue(o.value)
  {
    match o
    case None => Null
    case Some(d) => DecimalValue(d)
  }
}
