/** Option and Outcome datatypes standing in for Java's null and for exceptions. */
module Wrappers {

  /** A value that Java may leave null. */
  datatype Option<+T> = None | Some(value: T) {

    function GetOr(default: T): T {
      match this
      case Some(v) => v
      case None => default
    }
  }

  /** The exceptions the modelled code raises or catches, by cause. */
  datatype Error =
    | ProviderNotFound
    | ProviderInactive
    | ProviderNotReady
    | IllegalLifeCycle
    | NullValue
    | IndexOutOfBounds
    | IllegalArgument
    | MalformedUrl
    | ConcurrentModification
    | MissingEncryptionKey
    | ShortEncryptionKey
    | CipherInit
    | UnsupportedAvatarType
    | IllegalHint
    | StoreFailure
    | RemoteFailure

  /** Either a value or the exception that replaced it. */
  datatype Outcome<+T> = Ok(value: T) | Fail(error: Error) {

    predicate IsFailure() {
      Fail?
    }

    function PropagateFailure<U>(): Outcome<U>
      requires Fail?
    {
      Fail(error)
    }

    function Extract(): T
      requires Ok?
    {
      value
    }
  }
}
