/** Option and Result values used by every module of the model for absent
    fields and for the error paths of the routes and services. */
module Wrappers {

  datatype Option<+T> = None | Some(value: T) {
    function GetOr(default: T): T {
      match this
      case Some(v) => v
      case None => default
    }
  }

  datatype Result<+T, +E> = Ok(value: T) | Err(error: E) {
    predicate IsOk() {
      Ok?
    }
  }
}
