/** The Java exceptions the query rewriter can throw, with the data each carries. */
module Exceptions {

  datatype Exception =
    | IllegalArgumentException(message: string)
      /** The cast `(Query) statement` applied to a statement of another kind. */
    | ClassCastException
      /** Long.parseLong given text that is not a 64-bit decimal integer. */
    | NumberFormatException(input: string)
}
