/**
 * `convertErrorToObject(err)`: `Object.getOwnPropertyNames(err)` folded with
 * `reduce`, starting from `Object.create(null)`, by a reducer that writes
 * `acc[curr] = err[curr]` and has no `return`. The reducer therefore
 * returns undefined, so from its second call on `acc` is undefined and the
 * assignment throws a TypeError (PutValue on an undefined base, section
 * 6.2.5.6 of ECMA-262). The values `err[curr]` are never observable: the
 * one object they are written into is dropped.
 */
module ErrorObject {
  import opened Wrappers
  import opened Js
  import opened Errors

  /** What `convertErrorToObject` does: return a value, or throw a TypeError. */
  datatype Conversion = Converted(value: Value) | ThrewTypeError

  /** One call of the reducer on accumulator `acc`. */
  function ReducerStep(acc: Value): Conversion {
    if IsNullish(acc) then ThrewTypeError else Converted(Undefined)
  }

  /** `names.reduce(reducer, acc)`; an exception ends the fold. */
  function Reduce(names: seq<string>, acc: Value): (c: Conversion)
    ensures names == [] ==> c == Converted(acc)
    ensures names != [] && IsNullish(acc) ==> c == ThrewTypeError
    ensures |names| == 1 && !IsNullish(acc) ==> c == Converted(Undefined)
    ensures |names| >= 2 ==> c == ThrewTypeError
  {
    if names == [] then Converted(acc)
    else
      match ReducerStep(acc)
      case ThrewTypeError => ThrewTypeError
      case Converted(next) => Reduce(names[1..], next)
  }

  /**
   * No own property gives the empty prototype-less object, one gives
   * undefined, and two or more throw.
   */
  function ConvertErrorToObject(err: AppError): (c: Conversion)
    ensures err.ownKeys == [] ==> c == Converted(Object(map[]))
    ensures |err.ownKeys| == 1 ==> c == Converted(Undefined)
    ensures c == ThrewTypeError <==> |err.ownKeys| >= 2
  {
    Reduce(err.ownKeys, Object(map[]))
  }

  /** Every error built by the four domain constructors makes the conversion throw. */
  lemma DomainErrorsThrow(message: Option<string>)
    ensures ConvertErrorToObject(NewInvalidRequestParametersError(message)) == ThrewTypeError
    ensures ConvertErrorToObject(NewDuplicateItemError(message)) == ThrewTypeError
    ensures ConvertErrorToObject(NewPathNotFoundError(message)) == ThrewTypeError
    ensures ConvertErrorToObject(NewInvalidObjectIdError(message)) == ThrewTypeError
  {
  }
}
