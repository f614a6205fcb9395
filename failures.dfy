/** The exceptions the sandbox code throws, as values. */
module Failures {
  import opened Catalog

  datatype Failure =
    | NullPointer(what: string)         // NullPointerException: a required argument was null
    | IllegalArgument(what: string)     // IllegalArgumentException: port out of range or unsafe name
    | Sandbox(cause: SqlError)          // SandboxException wrapping an SQLException
    | SandboxMessage(message: string)   // SandboxException with a message and no cause
    | IllegalState(cause: SqlError)     // IllegalStateException wrapping an SQLException
    | SqlException(message: string)     // an SQLException raised by the extension itself
}
