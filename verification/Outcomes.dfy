/** Results shared by the models: an optional value, and a value or the
    exception the Python code would raise in its place. */
module Outcomes {

  datatype Option<+T> = None | Some(value: T)

  datatype PyError =
    | AttributeError
    | Exception
    | IndexError
    | TypeError
    | UnboundLocalError

  datatype Result<+T> = Ok(value: T) | Err(error: PyError)
}
