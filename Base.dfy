/** Small shared types: an optional value and the byte type of response bodies. */
module Base {

  /** An absent or present value; also the model of a write-once promise. */
  datatype Option<T> = None | Some(value: T) {
    function GetOr(default: T): T {
      match this
      case Some(v) => v
      case None => default
    }
  }

  /** A byte of a response body, as libcurl hands it to the body callback. */
  newtype uint8 = x: int | 0 <= x < 0x100
}
