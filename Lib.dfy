/** The two helpers of lib/index.js. */
module Lib {
  import opened Wrappers
  import opened Js

  /**
   * `isValidObjectId(id)`: a falsy id is rejected before the library is
   * consulted; otherwise the answer is the library's `ObjectId.isValid`,
   * passed in as `objectIdIsValid` and left uninterpreted.
   */
  function IsValidObjectId(id: Value, objectIdIsValid: Value -> bool): (valid: bool)
    ensures !Truthy(id) ==> !valid
    ensures Truthy(id) ==> valid == objectIdIsValid(id)
  {
    if !Truthy(id) then false else objectIdIsValid(id)
  }

  /**
   * The object `mapResponse` builds: a null-prototype object on which only
   * `message` and `data` can ever be set.
   */
  datatype MappedResponse = MappedResponse(message: Option<Value>, data: Option<Value>)

  /** `mapResponse(message, data)`; pass `Undefined` for an omitted argument. */
  function MapResponse(message: Value, data: Value): (r: MappedResponse)
    ensures r.message.Some? <==> Truthy(message)
    ensures r.message.Some? ==> r.message.value == message
    ensures r.data.Some? <==> Truthy(data) && OwnKeyCount(data) > 0
    ensures r.data.Some? ==> r.data.value == data
  {
    var withMessage := if Truthy(message) then Some(message) else None;
    var withData := if Truthy(data) && OwnKeyCount(data) > 0 then Some(data) else None;
    MappedResponse(withMessage, withData)
  }

  /** The error bodies of the controller: `mapResponse(text)` is just `{message: text}`. */
  lemma MapResponseMessageOnly(text: string)
    requires text != ""
    ensures MapResponse(Str(text), Undefined) == MappedResponse(Some(Str(text)), None)
  {
  }
}
