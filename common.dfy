/** Values shared by every part of the embeddings service model: optional values,
    results that carry a Python exception, the exception classes the service raises
    or catches, and the Python values that flow into an embedder. */
module Common {

  datatype Option<+T> = None | Some(value: T) {
    /** `x if x is not None else default` */
    function GetOr(default: T): T {
      match this
      case Some(v) => v
      case None => default
    }
  }

  /** The value a Python call returns, or the exception it raises. */
  datatype Result<+T, +E> = Ok(value: T) | Err(error: E) {
    predicate IsFailure() { Err? }
    function PropagateFailure<U>(): Result<U, E>
      requires Err?
    {
      Err(error)
    }
    function Extract(): T
      requires Ok?
    {
      value
    }
  }

  /** A Python statement that either completes normally or raises. */
  datatype Outcome<+E> = Pass | Fail(error: E)

  /** The exception classes that the service's `except` clauses tell apart. `OtherError`
      stands for every further `Exception` subclass a foreign call may raise. */
  datatype ExcKind =
    | ValueError
    | RuntimeError
    | TypeError
    | AttributeError
    | RequestException
    | HttpException(status: int)
    | OtherError

  /** A raised exception: its class and `str(e)` (for an HTTPException, its `detail`). */
  datatype Exc = Exc(kind: ExcKind, message: string)

  type byte = x: int | 0 <= x < 256

  /** An embedding as `tolist()` returns it; the float values themselves are opaque here. */
  type Vector = seq<real>

  /** A decoded PIL image (`Image.open(...).convert("RGB")`), kept opaque. */
  datatype Image = Image(handle: nat)

  /** The Python values the embedders dispatch on with `isinstance`. */
  datatype Value =
    | Str(s: string)
    | Bytes(b: seq<byte>)
    | Img(image: Image)
    | OtherValue(typeName: string)
}
