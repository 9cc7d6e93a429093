/** Failure-carrying wrappers shared by every module of the model. */
module Wrappers {

  /** Python's `X | None`. */
  datatype Option<+T> = None | Some(value: T) {
    function GetOr(default: T): T {
      match this
      case Some(v) => v
      case None => default
    }
  }

  /** A value or the exception that replaced it; usable with `:-`. */
  datatype Result<+T, +E> = Ok(value: T) | Err(error: E) {
    predicate IsFailure() {
      Err?
    }

    function PropagateFailure<U>(): Result<U, E>
      requires Err?
    {
      Err(error)
    }

    function Extract(): T
      requires Ok?
    {
      value
    }
  }
}

/** The exceptions of bot/exceptions.py together with the built-in and
    library exceptions that the core raises, catches or lets escape. */
module Exceptions {

  datatype Error =
    | InvariantError
    | NotFoundError
    | ValueError
    | NotApplicableError
      /** An exception outside the bot's own taxonomy (an `IndexError`, an
          HTTP error raised by a platform client); nothing in the core
          catches it. */
    | Unhandled(name: string)
}
