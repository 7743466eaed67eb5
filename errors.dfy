/** The exceptions the code raises, as values. */
module Errors {

  /** The diagnostic object a connection leaves in its `result` after a call. */
  datatype Diagnostic = Diagnostic(code: int, description: string, message: string)

  /** What an `LdapperException` carries: a literal text or the connection's result. */
  datatype Message = Text(text: string) | ConnectionResult(result: Diagnostic)

  datatype Error =
    | LdapperException(message: Message)
    | TypeError(reason: string)
    | ValueError(reason: string)
    | AttributeError(name: string)

  datatype Result<+T> = Ok(value: T) | Err(error: Error)

  const NO_CONNECTION := "No connection for ModelDefinition, consider chaining with using()"

  /** Raised by `get`, `find_raw` and `save` when no connection is bound. */
  const NoConnection := LdapperException(Text(NO_CONNECTION))
}
