/**
 * The API error value of types.go and its rendering as a Go `error` string.
 */
module Types {

  /** APIError (types.go:6-11). `errorType` is the JSON field `type`. */
  datatype APIError = APIError(statusCode: int, message: string, errorType: string, code: string)
  {
    /** APIError.Error() (types.go:13-18): the message, prefixed by "<type>: " when a type is set. */
    function Error(): (r: string)
      ensures errorType == "" ==> r == message
      ensures errorType != "" ==> |r| == |errorType| + 2 + |message|
      ensures errorType != "" ==> r[..|errorType|] == errorType && r[|errorType|..|errorType| + 2] == ": "
      ensures |message| <= |r| && r[|r| - |message|..] == message
    {
      if errorType != "" then errorType + ": " + message else message
    }
  }

  /** The type can be stripped off again: Error() loses nothing of the message. */
  function StripType(rendered: string, errorType: string): (m: string)
    requires errorType != "" ==> |errorType| + 2 <= |rendered|
  {
    if errorType != "" then rendered[|errorType| + 2..] else rendered
  }

  lemma MessageRecoverable(e: APIError)
    ensures StripType(e.Error(), e.errorType) == e.message
  {
  }

  /** Error() reads neither StatusCode nor Code (types.go:13-18). */
  lemma ErrorIgnoresStatusAndCode(a: APIError, b: APIError)
    requires a.message == b.message && a.errorType == b.errorType
    ensures a.Error() == b.Error()
  {
  }
}
