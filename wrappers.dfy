/** Option and Result, used wherever the Python code returns None or raises. */
module Wrappers {

  datatype Option<+T> = None | Some(value: T)

  /** The outcome of a call that either returns a value or raises an exception whose
      text (Python's `str(e)`) is kept, because the code writes it to the error log. */
  datatype Result<+T> = Ok(value: T) | Raised(message: string)

  /** A call that returns nothing and did not raise returned `None`. */
  lemma OkUnit(r: Result<()>)
    requires r.Ok?
    ensures r == Ok(())
  {
    match r { case Ok(()) => }
  }

  /** The texts of the built-in exceptions the code can meet. */
  const FLOAT_DIVISION_BY_ZERO: string := "float division by zero"
  const MODULO_BY_ZERO: string := "integer modulo by zero"
  const NO_SUCH_FILE: string := "No such file or directory"
  const IS_A_DIRECTORY: string := "Is a directory"
  const NOT_A_DIRECTORY: string := "Not a directory"
  /** `float()` of text that is not a number (the message is shortened). */
  const NOT_A_NUMBER: string := "could not convert string to float"
}
