/** The errors an option reports, as constructors carrying the positional
    arguments of the message templates they are formatted with, and the small
    wrapper types the rest of the model returns. */
module Errors {

  /** One constructor per message template used by the option engine. */
  datatype Error =
    | ConvertToInt(calledAs: string, token: string)   // a token that is not an integer
    | ArgumentIsNotKeyValue(calledAs: string)          // a map token without '='
    | MissingRequiredOption(name: string)              // required option never called
    | RequiredMessage(message: string)                 // the custom message of SetRequired

  /** Go's `error` return: nil or an error. */
  datatype Outcome = Pass | Fail(error: Error)

  /** A value or the error that prevented computing it. */
  datatype Result<T> = Ok(value: T) | Err(error: Error)

  /** A value that may be absent. */
  datatype Maybe<T> = None | Some(value: T)
}
