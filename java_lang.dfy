/**
 * The few Java values that the service broker model needs: references that
 * may be null, the boxed values a Map<String, Object> holds, 32-bit ints and
 * throwables identified by their class.
 */
module JavaLang {

  /** A Java reference that may be null. */
  datatype Nullable<+T> = Null | NonNull(value: T)

  /** Optional values that are not Java references (a lookup that may fail). */
  datatype Option<+T> = None | Some(value: T)

  /** A value that is either computed or the error that stopped the computation. */
  datatype Result<+T, +E> = Success(value: T) | Failure(error: E)

  /** Java's int. */
  newtype int32 = x: int | -0x8000_0000 <= x < 0x8000_0000

  /** The values an Object-typed map entry carries in this model. */
  datatype Object = JString(s: string) | JInteger(i: int32) | JBoolean(b: bool) | JNull

  /** A throwable, identified by its exact class and its message. */
  datatype Throwable = Throwable(className: string, message: Nullable<string>)

  const RuntimeExceptionClass := "java.lang.RuntimeException"
  const UnsupportedOperationExceptionClass := "java.lang.UnsupportedOperationException"

  /** How string concatenation renders a String reference: null becomes the text "null". */
  function Render(s: Nullable<string>): string
  {
    match s
    case Null => "null"
    case NonNull(v) => v
  }
}
