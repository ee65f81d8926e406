/**
 * The JSON response envelope shared by every controller action
 * (app/Traits/ApiResponse.php). Each builder is a pure function of its
 * arguments; the logging that errorResponse and notFoundResponse perform
 * is not modelled.
 */
module ApiResponse {

  /** A JSON value as it travels in a request or a response body. */
  datatype Json =
    | JNull
    | JBool(b: bool)
    | JInt(i: int)
    | JStr(s: string)
    | JArr(items: seq<Json>)
    | JObj(fields: map<string, Json>)

  /**
   * What `response()->json($body, $code)` hands to the transport: the
   * value given as the status argument, and the JSON object body.
   */
  datatype Response = Response(httpStatus: Json, body: map<string, Json>)

  /** The three keys of every envelope. */
  const EnvelopeKeys: set<string> := {"status", "message", "data"}

  /** A status the HTTP layer accepts: an integer in [100, 600). */
  predicate ValidHttpStatus(code: Json) {
    code.JInt? && 100 <= code.i < 600
  }

  /** An envelope: exactly the three keys, and its `status` is the status the response is sent with. */
  predicate IsEnvelope(r: Response) {
    r.body.Keys == EnvelopeKeys && r.body["status"] == r.httpStatus
  }

  /** successResponse($code, $message, $data). The defaults that PHP allows before the required $data are never effective. */
  function SuccessResponse(code: Json, message: Json, data: Json): (r: Response)
    ensures IsEnvelope(r)
    ensures r.httpStatus == code
    ensures r.body["message"] == message && r.body["data"] == data
  {
    Response(code, map["status" := code, "message" := message, "data" := data])
  }

  /** errorResponse($code, $message, $data = null), logging left out. */
  function ErrorResponse(code: Json, message: Json, data: Json := JNull): (r: Response)
    ensures IsEnvelope(r)
    ensures r.httpStatus == code
    ensures r.body["message"] == message && r.body["data"] == data
  {
    Response(code, map["status" := code, "message" := message, "data" := data])
  }

  /** Without a data argument the error envelope carries `data: null`. */
  lemma ErrorDataDefaultsToNull(code: Json, message: Json)
    ensures ErrorResponse(code, message).body["data"] == JNull
    ensures ErrorResponse(code, message) == ErrorResponse(code, message, JNull)
  {
  }

  /** Success and error envelopes built from the same arguments are the same response: only the logging differs. */
  lemma SuccessAndErrorShareEnvelope(code: Json, message: Json, data: Json)
    ensures SuccessResponse(code, message, data) == ErrorResponse(code, message, data)
    ensures SuccessResponse(code, message, data).body.Keys == ErrorResponse(code, message, data).body.Keys == EnvelopeKeys
  {
  }

  const DefaultNotFoundMessage: Json := JStr("Resource not found")

  /**
   * notFoundResponse as written: it calls errorResponse($message, 404),
   * so the message fills the code slot and 404 the message slot.
   */
  function NotFoundResponseAsWritten(message: Json := DefaultNotFoundMessage): (r: Response)
    ensures IsEnvelope(r)
    ensures r.httpStatus == message && r.body["status"] == message
    ensures r.body["message"] == JInt(404)
    ensures r.body["data"] == JNull
  {
    ErrorResponse(message, JInt(404))
  }

  /** With its default message the as-written builder sends no 404 and no valid HTTP status at all. */
  lemma NotFoundAsWrittenSwapsCodeAndMessage()
    ensures NotFoundResponseAsWritten().httpStatus == JStr("Resource not found")
    ensures !ValidHttpStatus(NotFoundResponseAsWritten().httpStatus)
    ensures NotFoundResponseAsWritten().body["message"] == JInt(404)
    ensures NotFoundResponseAsWritten() != NotFoundResponse()
  {
  }

  /** notFoundResponse as evidently intended: errorResponse(404, $message). */
  function NotFoundResponse(message: Json := DefaultNotFoundMessage): (r: Response)
    ensures IsEnvelope(r) && ValidHttpStatus(r.httpStatus)
    ensures r.httpStatus == JInt(404)
    ensures r.body["message"] == message && r.body["data"] == JNull
  {
    ErrorResponse(JInt(404), message)
  }
}
