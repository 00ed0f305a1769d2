/** Result types shared by every module. */
module Common {

  datatype Option<+T> = None | Some(value: T)

  /** An operation either returns a value or throws; `Conflict` is the store's refusal of an illegal transition. */
  datatype Result<+T> = Ok(value: T) | Err(error: Fault)

  datatype Fault = NotFound | Conflict | Invalid

  function Min(a: int, b: int): int {
    if a < b then a else b
  }
}
