/**
 The failure side of the model. Every external collaborator the scripts call
 (an agent's step, the vector store, the generative model, the HTTP transport)
 may raise; the scripts never catch, so an exception simply travels to the
 caller. `Outcome` carries either the value or the exception that was raised.
 */
module Outcomes {

  datatype Option<+T> = None | Some(value: T)

  /** The exceptions the modelled code can raise. */
  datatype Error =
    | IndexError                                 // a list lookup past its end
    | ZeroDivisionError                          // `x % 0`
    | KeyError(key: string)                      // a missing key in a parsed reply
    | ApiError(status: int, body: string)        // "Gemini API Error: <status> - <body>"
    | External(reason: string)                   // raised inside a collaborator we cannot see

  datatype Outcome<+T> = Ok(value: T) | Raised(error: Error)
}
