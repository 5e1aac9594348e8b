/** The request/response shape shared by the Lambda handlers that answer
    API Gateway proxy events. */
module Lambda {
  import opened Common

  /** The request body after `JSON.parse(event.body || "{}")`:
      `NoBody` is an absent or empty body (defaulted to `"{}"`), `Malformed`
      a body whose parse or destructuring throws (with the runtime's error
      message), `Json` a parsed object whose `businessIdea` is either absent
      or falsy-but-not-a-string (`None`) or a string. */
  datatype RawBody = NoBody | Malformed(message: string) | Json(businessIdea: Option<string>)

  datatype Event = Event(httpMethod: string, body: RawBody)

  datatype Response<B> = Response(statusCode: int, headers: map<string, string>, body: B)

  /** `event.body || "{}"`: an absent body parses as an empty object. */
  function ParsedBody(b: RawBody): (p: RawBody)
    ensures p != NoBody
    ensures b == NoBody ==> p == Json(None)
    ensures b != NoBody ==> p == b
  {
    if b == NoBody then Json(None) else b
  }

  /** `!businessIdea` is false: the idea is present and a non-empty string.
      There is no trim, so an idea of blanks is accepted. */
  predicate IdeaGiven(idea: Option<string>) {
    idea.Some? && idea.value != ""
  }

  const AllowOrigin := "Access-Control-Allow-Origin"
  const AllowHeaders := "Access-Control-Allow-Headers"
  const AllowMethods := "Access-Control-Allow-Methods"
  const AllowCredentials := "Access-Control-Allow-Credentials"
  const MaxAge := "Access-Control-Max-Age"

  const FrontendOrigin := "http://localhost:5173"
  const AllowedHeaderList := "Content-Type,X-Amz-Date,Authorization,X-Api-Key,X-Amz-Security-Token"
  const AllowedMethodList := "GET,POST,OPTIONS"

  /** The `corsHeaders` object each agent handler declares for itself. */
  const HandlerCorsHeaders: map<string, string> :=
    map[AllowOrigin := FrontendOrigin, AllowHeaders := AllowedHeaderList, AllowMethods := AllowedMethodList]

  const MissingIdeaError := "Missing required parameter: businessIdea"
  const InternalError := "Internal server error"
}
