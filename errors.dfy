/**
 * The error classes of src/utils/errors.ts, `handleError` and `assertNonNull`, and the shapes
 * every other module uses for exceptions: a thrown value and a result that is either a value or
 * a thrown value.
 */
module Errors {
  import opened Text
  import opened Optional

  /**
   * `Error` itself, `BaseError` and its five subclasses, and `ValidationError`, which the
   * validation service throws (it is not a `BaseError`).
   */
  datatype ErrorClass =
    | PlainError
    | BaseError
    | BrowserError
    | AuthenticationError
    | InputError
    | NavigationError
    | StorageError
    | ValidationError

  /** An Error object: its class, its `name` and its `message`. */
  datatype Error = Error(cls: ErrorClass, name: string, message: string)

  /** A thrown value: an Error object, or any other value, kept as its `String(value)` text. */
  datatype Thrown = Raised(error: Error) | NonError(text: string)

  /** What an awaited call produces: its value, or the value it threw (the promise's rejection). */
  datatype Result<T> = Ok(value: T) | Threw(thrown: Thrown)

  /** `instanceof BaseError` */
  predicate IsBaseError(cls: ErrorClass) {
    cls != PlainError && cls != ValidationError
  }

  /** `this.constructor.name`, which `BaseError` stores in `name`. */
  function ClassName(cls: ErrorClass): string {
    match cls
    case PlainError => "Error"
    case BaseError => "BaseError"
    case BrowserError => "BrowserError"
    case AuthenticationError => "AuthenticationError"
    case InputError => "InputError"
    case NavigationError => "NavigationError"
    case StorageError => "StorageError"
    case ValidationError => "ValidationError"
  }

  /** The category each subclass puts in front of the message it is given. */
  function Prefix(cls: ErrorClass): string {
    match cls
    case BrowserError => "Browser Error: "
    case AuthenticationError => "Authentication Error: "
    case InputError => "Input Error: "
    case NavigationError => "Navigation Error: "
    case StorageError => "Storage Error: "
    case _ => ""
  }

  /** `new <cls>(message)` */
  function NewError(cls: ErrorClass, message: string): (e: Error)
    ensures e.cls == cls && e.name == ClassName(cls)
    ensures StartsWith(e.message, Prefix(cls)) && e.message[|Prefix(cls)|..] == message
  {
    Error(cls, ClassName(cls), Prefix(cls) + message)
  }

  /** Throws `new <cls>(message)`. */
  function Fail<T>(cls: ErrorClass, message: string): Result<T> {
    Threw(Raised(NewError(cls, message)))
  }

  /** `error instanceof Error ? error.message : String(error)`, how every catch block describes its cause. */
  function Cause(t: Thrown): string {
    match t
    case Raised(e) => e.message
    case NonError(text) => text
  }

  /**
   * `handleError` never returns normally: it rethrows an Error object (a `BaseError` or any
   * other) unchanged, and replaces any other value by a new `Error('An unknown error occurred')`.
   */
  function HandleError(t: Thrown): (r: Result<()>)
    ensures r.Threw?
    ensures t.Raised? ==> r.thrown == t
    ensures t.NonError? ==> r.thrown.Raised? && r.thrown.error.cls == PlainError
    ensures t.NonError? ==> Cause(r.thrown) == "An unknown error occurred"
  {
    match t
    case Raised(e) => Threw(t)
    case NonError(_) => Fail(PlainError, "An unknown error occurred")
  }

  /** A value that may be `null` or `undefined`. */
  datatype Nullable<T> = Null | Undefined | Present(value: T)

  /** `assertNonNull`: the value itself, or `Error(message)` for `null` and `undefined`. */
  function AssertNonNull<T>(value: Nullable<T>, message: string): (r: Result<T>)
    ensures r.Ok? <==> value.Present?
    ensures r.Ok? ==> r.value == value.value
    ensures r.Threw? ==> r.thrown.Raised? && r.thrown.error.cls == PlainError && Cause(r.thrown) == message
  {
    match value
    case Present(v) => Ok(v)
    case _ => Fail(PlainError, message)
  }
}
