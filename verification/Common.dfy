/** Definitions shared by the models. */
module Common {
  /** The size of a page. */
  const PAGE := 4096

  type byte = x: int | 0 <= x < 256

  datatype Option<T> = None | Some(value: T) {
    function GetOr(default: T): T { if Some? then value else default }
  }

  datatype Result<T, E> = Ok(value: T) | Err(error: E) {
    function GetOr(default: T): T { if Ok? then value else default }
  }

  function Min(a: nat, b: nat): nat { if a < b then a else b }

  function Max(a: nat, b: nat): nat { if a < b then b else a }
}
