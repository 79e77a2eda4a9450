/** Option and Result, the two failure-carrying shapes the Rust code returns, and `usize::min`. */
module Wrappers {

  /** `Option<T>`: `Some(value)` or `None`. */
  datatype Option<+T> = None | Some(value: T)

  /** `Result<R, E>`: `Ok(value)` or `Err(error)`; `try_send` uses `Result<(), T>`. */
  datatype Result<+R, +E> = Ok(value: R) | Err(error: E)

  /** `a.min(b)`: `render_block` uses it, and the ring lemmas count with it how many sends fit. */
  function Min(a: nat, b: nat): nat
  {
    if a <= b then a else b
  }
}
