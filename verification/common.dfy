/**
 * Values shared by both list implementations: optional values, Java
 * references that may be null, the exceptions the lists can raise, and
 * Java's 32-bit `int` arithmetic.
 */
module Common {

  datatype Option<T> = None | Some(value: T)

  /** A Java reference to a `T`, or `null`. */
  datatype Ref<T> = Null | Obj(value: T)

  /** The exceptions and errors the list code can raise. */
  datatype JavaError =
    | NullPointer            // java.lang.NullPointerException
    | IndexOutOfBounds       // java.lang.IndexOutOfBoundsException, thrown by checkRange
    | ArrayIndexOutOfBounds  // java.lang.ArrayIndexOutOfBoundsException, thrown by an array access
    | NegativeArraySize      // java.lang.NegativeArraySizeException
    | OutOfMemory            // java.lang.OutOfMemoryError
    | ClassCast              // java.lang.ClassCastException
    | StackOverflow          // java.lang.StackOverflowError

  /** Normal completion with a value, or an exception. */
  datatype Result<T> = Ok(value: T) | Thrown(error: JavaError)

  const MIN_INT: int := -0x8000_0000
  const MAX_INT: int := 0x7fff_ffff

  /** The values of Java's `int`. */
  newtype int32 = x: int | MIN_INT <= x <= MAX_INT

  /** Two's-complement wrap-around of Java `int` arithmetic (JLS section 15.18.2, 15.17.1). */
  function Wrap(x: int): (r: int32)
    ensures MIN_INT <= x <= MAX_INT ==> r as int == x
    ensures (r as int - x) % 0x1_0000_0000 == 0
  {
    var m := (x - MIN_INT) % 0x1_0000_0000;
    (m + MIN_INT) as int32
  }

  /** A sum that overflows `int` by less than 2^32 comes back reduced by 2^32, hence negative. */
  lemma WrapAbove(x: int)
    requires MAX_INT < x <= 2 * MAX_INT
    ensures Wrap(x) as int == x - 0x1_0000_0000
    ensures Wrap(x) < 0
  {
    var m := (x - MIN_INT) % 0x1_0000_0000;
    assert x - MIN_INT == (x - MIN_INT - 0x1_0000_0000) + 0x1_0000_0000;
    assert m == x - MIN_INT - 0x1_0000_0000;
  }

  /** `Math.max(int, int)`. */
  function Max(a: int32, b: int32): (r: int32)
    ensures r >= a && r >= b
    ensures r == a || r == b
  {
    if a >= b then a else b
  }
}
