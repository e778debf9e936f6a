/** The two outcome types the program uses: Rust's `Result` and `Option`. */
module Results {

  /** Rust's `Result<T, E>`; usable with `:-` like the `try!` macro. */
  datatype Result<+T, +E> = Ok(value: T) | Err(error: E) {

    predicate IsFailure() {
      Err?
    }

    function PropagateFailure<U>(): Result<U, E>
      requires Err?
    {
      Err(error)
    }

    function Extract(): T
      requires Ok?
    {
      value
    }
  }

  datatype Option<+T> = None | Some(value: T)
}
