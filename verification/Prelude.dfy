/** Small carriers shared by every module. */
module Prelude {

  type byte = x: int | 0 <= x < 256

  datatype Option<+T> = None | Some(value: T)

  datatype Result<+T, +E> = Ok(value: T) | Err(error: E)

  /** What became of one write sent to an API server. `Lost` is a write that landed although
      the caller was told it failed. */
  datatype Reply = Done | Refused | Lost {
    predicate Landed() { !Refused? }
  }
}
