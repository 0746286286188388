/** Option and HTTP-style response values shared by the other modules. */
module Wrappers {

  /** A value that may be absent (`undefined` / `null` / a failed match). */
  datatype Option<+T> = None | Some(value: T) {
    function GetOr(default: T): T {
      match this
      case Some(v) => v
      case None => default
    }
  }

  /** The zero- or one-element sequence an optional record contributes to a list. */
  function Fired<T>(o: Option<T>): (r: seq<T>)
    ensures |r| <= 1
    ensures o.Some? <==> |r| == 1
    ensures o.Some? ==> r[0] == o.value
  {
    match o
    case None => []
    case Some(x) => [x]
  }

  /** What a route handler answers: a body, or an error status with a message. */
  datatype Response<+T> = Ok(body: T) | Error(status: nat, message: string)
}
