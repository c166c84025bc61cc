/** The error classification of warehouse-app/src/api/warehouseMethods.js:
    the local not-found signal and `throwThriftError`. */
module ThriftErrors {
  import opened Js

  /** What an RPC caller receives: a value, or one of the three declared
      exceptions, each with a message. */
  datatype Result<+T> =
    | Ok(value: T)
    | NotFound(message: string)     // apiTypes.EntityNotFoundError
    | Validation(message: string)   // apiTypes.ValidationError
    | Database(message: string)     // apiTypes.DatabaseError

  /** `new EntityNotFoundError(message)`: an `Error` whose name is `EntityNotFound`. */
  function EntityNotFoundError(message: string): (e: Failure)
    ensures e.name == "EntityNotFound" && e.message == message && e.code == None
  {
    Failure("EntityNotFound", None, message)
  }

  /** `throwThriftError(err)`: every failure becomes exactly one client-visible kind
      carrying the original message. The conditions are checked in order: the name
      `EntityNotFound` first, then the name `ValidationError` or the store's code 121,
      and everything else is a database error. */
  function ThrowThriftError<T>(err: Failure): (r: Result<T>)
    ensures !r.Ok? && r.message == err.message
    ensures r.NotFound? <==> err.name == "EntityNotFound"
    ensures r.Validation? <==> err.name != "EntityNotFound" && (err.name == "ValidationError" || err.code == Some(121))
    ensures r.Database? <==> err.name != "EntityNotFound" && err.name != "ValidationError" && err.code != Some(121)
  {
    if err.name == "EntityNotFound" then NotFound(err.message)
    else if err.name == "ValidationError" || err.code == Some(121) then Validation(err.message)
    else Database(err.message)
  }

  /** The local not-found signal always reaches the caller as `EntityNotFoundError`
      with its own message. */
  lemma EntityNotFoundClassified<T>(message: string)
    ensures ThrowThriftError<T>(EntityNotFoundError(message)) == NotFound(message)
  {
  }

  /** The name test takes priority: a failure named `EntityNotFound` is not a
      validation failure even when it carries code 121. */
  lemma NotFoundBeforeValidation<T>(message: string)
    ensures ThrowThriftError<T>(Failure("EntityNotFound", Some(121), message)) == NotFound(message)
  {
  }

  /** The `try … catch (err) { throwThriftError(err) }` around every handler body:
      a value returned is the result, a failure thrown is classified. */
  function Catch<T>(o: Outcome<T>): (r: Result<T>)
    ensures o.Returned? ==> r == Ok(o.value)
    ensures o.Threw? ==> r == ThrowThriftError(o.error)
  {
    match o
    case Returned(v) => Ok(v)
    case Threw(e) => ThrowThriftError(e)
  }
}
