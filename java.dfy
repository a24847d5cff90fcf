/**
 * The Java value conventions the widget relies on: 32- and 64-bit integers with
 * two's-complement wrap-around, references that may be null, and the exceptions
 * the widget throws, turned into values.
 */
module Java {

  /** A Java `int`. */
  type Int32 = x: int | -0x8000_0000 <= x < 0x8000_0000

  /** A Java `long`. */
  type Int64 = x: int | -0x8000_0000_0000_0000 <= x < 0x8000_0000_0000_0000

  const INT_MIN: Int32 := -0x8000_0000
  const INT_MAX: Int32 := 0x7fff_ffff

  /** The `int` that Java's `+` and `-` produce for the exact result `x`. */
  function Wrap32(x: int): (r: Int32)
    ensures INT_MIN <= x <= INT_MAX ==> r == x
    ensures x == INT_MAX + 1 ==> r == INT_MIN
    ensures x == INT_MIN - 1 ==> r == INT_MAX
    ensures (r - x) % 0x1_0000_0000 == 0
  {
    (x + 0x8000_0000) % 0x1_0000_0000 - 0x8000_0000
  }

  /** A reference whose target the model looks into; `None` is Java's null. */
  datatype Option<T> = None | Some(value: T)

  /** An object the model does not look into (a View, an item): null or some object. */
  datatype Ref = Null | Obj(handle: nat)

  /** The exceptions the widget raises. */
  datatype Exception =
    | ArrayIndexOutOfBounds(index: Int32)
    | IllegalArgument(message: string)
    | IllegalState(message: string)
    | NullPointer

  /** A call that returns a value or throws. */
  datatype Result<T> = Ok(value: T) | Throws(exception: Exception)

  /** A `void` call that returns normally or throws. */
  datatype Outcome = Normal | Raised(exception: Exception)
}
