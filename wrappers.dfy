/** Option and Result, and the exceptions the add-on raises or catches.

    The Python code signals failure with exceptions; every operation of the
    model that can raise returns a `Result` whose `Err` case names the
    exception, so callers see the error path instead of a precondition. */
module Wrappers {

  datatype Option<+T> = None | Some(value: T)
  {
    function GetOr(default: T): T {
      match this
      case Some(v) => v
      case None => default
    }
  }

  /** The exceptions of the add-on and of Python that the modelled code
      raises, catches or lets through. */
  datatype Exc =
    | KeyError
    | IndexError
    | TypeError
    | AttributeError
    | ValueError
    | UnicodeDecodeError
    | IOError
    | NameError
    | CacheMiss
    | UnknownCacheBucket
    | InvalidVideoId
    | InvalidVideoListType
    | MissingCookies
    | CookiesExpired
    | InvalidAuthUrl
    | InvalidMembershipStatus
    | MastertokenExpired
    | MslError(message: string)
    /** An exception raised by code outside the model (a producer, the network) */
    | Foreign(name: string)

  datatype Result<+T> = Ok(value: T) | Err(exc: Exc)
  {
    predicate IsFailure() {
      Err?
    }

    function PropagateFailure<U>(): Result<U>
      requires Err?
    {
      Err(exc)
    }

    function Extract(): T
      requires Ok?
    {
      value
    }
  }
}
