/** Option and Result datatypes standing for Rust's, shared by every
    module. */
module Wrappers {

  datatype Option<+T> = None | Some(value: T) {

    /** `unwrap_or`: the carried value, or `default` when there is none. */
    function GetOr(default: T): T {
      match this
      case Some(v) => v
      case None => default
    }
  }

  datatype Result<+T, +E> = Ok(value: T) | Err(error: E)
}

/** The HTTP responses the handlers build; actix's response builders are
    reduced to a status and a body. */
module Http {

  datatype Status =
    | Ok200
    | Created201
    | BadRequest400
    | Unauthorized401
    | Forbidden403
    | NotFound404
    | InternalError500

  /** The numeric code of a status. */
  function Code(s: Status): nat {
    match s
    case Ok200 => 200
    case Created201 => 201
    case BadRequest400 => 400
    case Unauthorized401 => 401
    case Forbidden403 => 403
    case NotFound404 => 404
    case InternalError500 => 500
  }

  /** A status is a success when its code lies in 200..299. */
  predicate IsSuccess(s: Status) {
    200 <= Code(s) < 300
  }

  datatype Response<B> = Response(status: Status, body: B)
}
