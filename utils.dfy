/** The two helpers of lib/utils.ts that the dispatch layer uses. */
module Utils {
  import opened Js

  const UNKNOWN_ERROR: string := "Error desconocido"

  /**
   * `isValidWebhookResponse(data)`: the `&&` chain returns `data` itself when it
   * is falsy, and a boolean otherwise.
   */
  function IsValidWebhookResponse(data: Value): (r: Value)
    ensures !Truthy(data) ==> r == data
    ensures Truthy(data) ==> r.Bool?
    ensures Truthy(r) <==> data.Obj? && Get(data, "response").Str? && Get(data, "success").Bool?
  {
    if !Truthy(data) then data
    else Bool(IsTypeofObject(data) && Get(data, "response").Str? && Get(data, "success").Bool?)
  }

  /** Only the types are checked: an empty `response` text is still a valid response. */
  lemma EmptyResponseIsValid(success: bool)
    ensures IsValidWebhookResponse(Obj(map["response" := Str(""), "success" := Bool(success)])) == Bool(true)
  {
  }

  /**
   * `getErrorMessage(error)`: a truthy `error?.message`, else the error itself
   * when it is a string, else a fixed text.
   */
  function GetErrorMessage(error: Value): (r: Value)
    ensures !IsNullish(error) && Truthy(Get(error, "message")) ==> r == Get(error, "message")
    ensures error.Str? ==> r == error
    ensures !error.Str? && !(error.Obj? && Truthy(Get(error, "message"))) ==> r == Str(UNKNOWN_ERROR)
    ensures Truthy(r) || r == Str("")
  {
    var message := if IsNullish(error) then Undefined else Get(error, "message");
    if Truthy(message) then message
    else if error.Str? then error
    else Str(UNKNOWN_ERROR)
  }

  /** The message of an `Error` object: its own text, or the fixed text when that is empty. */
  lemma ErrorObjectMessage(m: string)
    ensures GetErrorMessage(ErrorObject(m)) == Str(if m == "" then UNKNOWN_ERROR else m)
  {
  }
}
