/** Datatypes and string helpers shared by the other modules. */
module Common {

  /** A JavaScript value that may be null, undefined or of the wrong type. */
  datatype Option<+T> = None | Some(value: T)

  function Max(a: int, b: int): int { if a < b then b else a }

  function Min(a: int, b: int): int { if b < a then b else a }
}
