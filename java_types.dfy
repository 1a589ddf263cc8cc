/** Java's fixed-width integers, class names and throwables, as the rest of the model sees them. */
module JavaTypes {
  import opened Wrappers

  /** Java `int`. */
  newtype Int32 = x: int | -0x8000_0000 <= x < 0x8000_0000
  /** Java `long`. */
  newtype Int64 = x: int | -0x8000_0000_0000_0000 <= x < 0x8000_0000_0000_0000

  const INT_MODULUS: int := 0x1_0000_0000
  const LONG_MODULUS: int := 0x1_0000_0000_0000_0000

  /** Reduces a mathematical integer to the two's-complement range of the given modulus, as the JVM does. */
  function Wrap(n: int, modulus: int): (r: int)
    requires modulus > 0 && modulus % 2 == 0
    ensures -modulus / 2 <= r < modulus / 2
  {
    (n + modulus / 2) % modulus - modulus / 2
  }

  /** `x++` on a Java `int`: one more, except that the largest value wraps to the smallest. */
  function Inc32(x: Int32): (r: Int32)
    ensures r as int == Wrap(x as int + 1, INT_MODULUS)
    ensures x as int < 0x7fff_ffff ==> r as int == x as int + 1
  {
    if x == 0x7fff_ffff then -0x8000_0000 else x + 1
  }

  /** `x++` on a Java `long`. */
  function Inc64(x: Int64): (r: Int64)
    ensures r as int == Wrap(x as int + 1, LONG_MODULUS)
    ensures x as int < 0x7fff_ffff_ffff_ffff ==> r as int == x as int + 1
  {
    if x == 0x7fff_ffff_ffff_ffff then -0x8000_0000_0000_0000 else x + 1
  }

  /** A fully qualified Java class name. */
  type ClassName = string

  /** `StringUtils.isNotEmpty`: neither null nor of length zero; the model writes null as "". */
  predicate IsNotEmpty(s: string) {
    |s| > 0
  }

  /**
   * A thrown Java object: its class and the class of its root cause, which is what
   * `ExceptionUtils.getRootCause` would return (None stands for null).
   */
  datatype Throwable = Throwable(cls: ClassName, rootCause: Option<ClassName>)

  /** `Class.isAssignableFrom`, the JVM's subtype relation: `IsAssignableFrom(sup, sub)`. */
  type Hierarchy = (ClassName, ClassName) -> bool
}
