/** Nullable Java `Integer` values and the arithmetic helpers the driver applies to them.

    The helper class these functions stand for is not part of this model. The model
    fixes one convention for it and uses it everywhere:
    - `Sum`, `Min`, `Max` and `Multiply` skip null operands and are null only when
      every operand is null;
    - `Subtract(minuend, subtrahend)` is null when the minuend is null and returns
      the minuend unchanged when the subtrahend is null.
 */
module TypeUtils {

  /** A possibly-null value (a Java `Integer`, `Boolean`, `Long` or `String`). */
  datatype Option<+T> = None | Some(value: T) {
    /** The value, or `default` when null (OpenEMS `orElse`). */
    function OrElse(default: T): T {
      match this
      case Some(v) => v
      case None => default
    }
  }

  const INT_MIN: int := -0x8000_0000
  const INT_MAX: int := 0x7FFF_FFFF

  /** The range of a Java `int`. */
  type Int32 = x: int | INT_MIN <= x <= INT_MAX

  predicate IsInt32(x: int) {
    INT_MIN <= x <= INT_MAX
  }

  /** Two's-complement wrap-around of Java `int` arithmetic. */
  function Wrap32(x: int): (r: Int32)
    ensures IsInt32(x) ==> r == x
    ensures (x - r) % 0x1_0000_0000 == 0
  {
    if IsInt32(x) then x else (x - INT_MIN) % 0x1_0000_0000 + INT_MIN
  }

  function IntMin(a: int, b: int): int {
    if a <= b then a else b
  }

  function IntMax(a: int, b: int): int {
    if a >= b then a else b
  }

  function Sum(a: Option<int>, b: Option<int>): (r: Option<int>)
    ensures r.None? <==> a.None? && b.None?
    ensures r.Some? ==> r.value == a.OrElse(0) + b.OrElse(0)
  {
    if a.None? then b
    else if b.None? then a
    else Some(a.value + b.value)
  }

  function Subtract(minuend: Option<int>, subtrahend: Option<int>): (r: Option<int>)
    ensures r.None? <==> minuend.None?
    ensures r.Some? ==> r.value == minuend.value - subtrahend.OrElse(0)
  {
    if minuend.None? then None
    else if subtrahend.None? then minuend
    else Some(minuend.value - subtrahend.value)
  }

  function Multiply(a: Option<int>, b: Option<int>): (r: Option<int>)
    ensures r.None? <==> a.None? && b.None?
    ensures r.Some? ==> r.value == a.OrElse(1) * b.OrElse(1)
  {
    if a.None? then b
    else if b.None? then a
    else Some(a.value * b.value)
  }

  function Min(a: Option<int>, b: Option<int>): (r: Option<int>)
    ensures r.None? <==> a.None? && b.None?
    ensures r.Some? ==> (a.Some? ==> r.value <= a.value) && (b.Some? ==> r.value <= b.value)
    ensures r.Some? ==> r == a || r == b
  {
    if a.None? then b
    else if b.None? then a
    else if a.value <= b.value then a else b
  }

  function Max(a: Option<int>, b: Option<int>): (r: Option<int>)
    ensures r.None? <==> a.None? && b.None?
    ensures r.Some? ==> (a.Some? ==> r.value >= a.value) && (b.Some? ==> r.value >= b.value)
    ensures r.Some? ==> r == a || r == b
  {
    if a.None? then b
    else if b.None? then a
    else if a.value >= b.value then a else b
  }

  /** `TypeUtils.max(0, x)` unboxed to an `int`: never null, never negative. */
  function MaxWithZero(x: Option<int>): (r: int)
    ensures r >= 0
    ensures x.Some? && x.value >= 0 ==> r == x.value
    ensures x.None? || x.value < 0 ==> r == 0
  {
    Max(Some(0), x).value
  }
}
