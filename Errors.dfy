/**
 * The error taxonomy. The source declares these classes in two directories
 * (src/errors and src/utils/errors); the model has one datatype for both,
 * so "is an instance of" is decided by `kind` alone.
 */
module Errors {
  import opened Wrappers

  datatype ErrorKind =
    | InvalidObjectId
    | InvalidRequestParameters
    | DuplicateItem
    | PathNotFound
    | Unclassified   // any other Error, from the store or the runtime

  /**
   * An error object as the handlers see it: its class, its `name` and
   * `message`, the separate (misspelled) property `messsage` that the
   * error middleware reads, and `ownKeys`, the names that
   * `Object.getOwnPropertyNames` lists for it. None of the four domain
   * constructors sets `messsage`; a foreign error may carry one.
   */
  datatype AppError = AppError(kind: ErrorKind, name: string, message: string, messsage: Option<string>,
                               ownKeys: seq<string>)

  /**
   * The own properties a domain error is given: the Error constructor
   * (section 20.5.1.1 of ECMA-262) defines an own `message` because the
   * message it is passed is never undefined, and the assignment
   * `this.name = ...` then creates an own `name`.
   */
  const DomainOwnKeys := ["message", "name"]

  /** `message || fallback` for a message that is a string or missing. */
  function OrDefault(message: Option<string>, fallback: string): (m: string)
    ensures message.Some? && message.value != "" ==> m == message.value
    ensures message.None? || message.value == "" ==> m == fallback
  {
    if message.Some? && message.value != "" then message.value else fallback
  }

  const InvalidRequestParametersDefault := "Invalid request parameters"
  const DuplicateItemDefault := "Duplicate item, unique index failed."
  const PathNotFoundDefault := "Path not found!"
  const InvalidObjectIdDefault := "Invalid objectId passed!"

  /** `new InvalidRequestParametersError(message)` */
  function NewInvalidRequestParametersError(message: Option<string>): (e: AppError)
    ensures e.kind == InvalidRequestParameters && e.name == "InvalidRequestParametersError"
    ensures message.Some? && message.value != "" ==> e.message == message.value
    ensures message.None? || message.value == "" ==> e.message == InvalidRequestParametersDefault
    ensures e.messsage.None?
    ensures "message" in e.ownKeys && "name" in e.ownKeys
  {
    AppError(InvalidRequestParameters, "InvalidRequestParametersError",
             OrDefault(message, InvalidRequestParametersDefault), None, DomainOwnKeys)
  }

  /** `new DuplicateItemError(message)` */
  function NewDuplicateItemError(message: Option<string>): (e: AppError)
    ensures e.kind == DuplicateItem && e.name == "DuplicateItemError"
    ensures message.Some? && message.value != "" ==> e.message == message.value
    ensures message.None? || message.value == "" ==> e.message == DuplicateItemDefault
    ensures e.messsage.None?
    ensures "message" in e.ownKeys && "name" in e.ownKeys
  {
    AppError(DuplicateItem, "DuplicateItemError", OrDefault(message, DuplicateItemDefault), None, DomainOwnKeys)
  }

  /** `new PathNotFoundError(message)` */
  function NewPathNotFoundError(message: Option<string>): (e: AppError)
    ensures e.kind == PathNotFound && e.name == "PathNotFoundError"
    ensures message.Some? && message.value != "" ==> e.message == message.value
    ensures message.None? || message.value == "" ==> e.message == PathNotFoundDefault
    ensures e.messsage.None?
    ensures "message" in e.ownKeys && "name" in e.ownKeys
  {
    AppError(PathNotFound, "PathNotFoundError", OrDefault(message, PathNotFoundDefault), None, DomainOwnKeys)
  }

  /** `new InvalidObjectIdError(message)` */
  function NewInvalidObjectIdError(message: Option<string>): (e: AppError)
    ensures e.kind == InvalidObjectId && e.name == "InvalidObjectIdError"
    ensures message.Some? && message.value != "" ==> e.message == message.value
    ensures message.None? || message.value == "" ==> e.message == InvalidObjectIdDefault
    ensures e.messsage.None?
    ensures "message" in e.ownKeys && "name" in e.ownKeys
  {
    AppError(InvalidObjectId, "InvalidObjectIdError", OrDefault(message, InvalidObjectIdDefault), None, DomainOwnKeys)
  }

  /** Every constructed error has a non-empty message, so the default never leaves it blank. */
  lemma MessagesNeverEmpty(message: Option<string>)
    ensures NewInvalidRequestParametersError(message).message != ""
    ensures NewDuplicateItemError(message).message != ""
    ensures NewPathNotFoundError(message).message != ""
    ensures NewInvalidObjectIdError(message).message != ""
  {
  }
}
