/** The shared CORS wrapper: it answers preflight requests itself, adds the
    default CORS headers to whatever the wrapped handler returns (the
    handler's own headers win), and turns a thrown error into a 500. */
module Cors {
  import opened Common
  import opened Lambda

  /** What the wrapped handler resolves to: its status code, body, headers
      (absent when the object has no `headers` field) and any other fields. */
  datatype HandlerResponse = HandlerResponse(statusCode: int, body: string, headers: Option<map<string, string>>,
                                             extra: map<string, string>)

  /** The wrapped handler either returns a response or throws. */
  datatype HandlerOutcome = Returned(response: HandlerResponse) | Threw(message: string)

  /** The wrapper's response: same fields, headers always present. */
  datatype CorsResponse = CorsResponse(statusCode: int, body: string, headers: map<string, string>,
                                       extra: map<string, string>)

  /** The four headers added to every handler response and to the 500. */
  const DefaultHeaders: map<string, string> :=
    map[AllowOrigin := FrontendOrigin, AllowHeaders := AllowedHeaderList, AllowMethods := AllowedMethodList,
        AllowCredentials := "true"]

  /** The preflight headers: the four defaults and a one-day max age. */
  const PreflightHeaders: map<string, string> := DefaultHeaders[MaxAge := "86400"]

  const ErrorBody := "{\"error\":\"Internal server error\"}"

  /** `{ ...defaults, ...response.headers }`: every default key and every
      handler key is present; on a collision the handler's value wins. */
  function MergeHeaders(own: Option<map<string, string>>): (h: map<string, string>)
    ensures own.None? ==> h == DefaultHeaders
    ensures own.Some? ==> h.Keys == DefaultHeaders.Keys + own.value.Keys
    ensures own.Some? ==> forall k :: k in own.value ==> h[k] == own.value[k]
    ensures forall k :: k in DefaultHeaders && (own.None? || k !in own.value) ==> h[k] == DefaultHeaders[k]
  {
    match own
    case None => DefaultHeaders
    case Some(hs) => DefaultHeaders + hs
  }

  /** The wrapped handler applied to one event. */
  function Wrap(handler: Event -> HandlerOutcome, event: Event): (r: CorsResponse)
    ensures event.httpMethod == "OPTIONS" ==> r == CorsResponse(200, "", PreflightHeaders, map[])
    ensures event.httpMethod != "OPTIONS" && handler(event).Threw? ==>
      r == CorsResponse(500, ErrorBody, DefaultHeaders, map[])
    ensures event.httpMethod != "OPTIONS" && handler(event).Returned? ==>
      var resp := handler(event).response;
      r.statusCode == resp.statusCode && r.body == resp.body && r.extra == resp.extra
      && r.headers == MergeHeaders(resp.headers)
  {
    if event.httpMethod == "OPTIONS" then CorsResponse(200, "", PreflightHeaders, map[])
    else match handler(event)
      case Threw(_) => CorsResponse(500, ErrorBody, DefaultHeaders, map[])
      case Returned(resp) => CorsResponse(resp.statusCode, resp.body, MergeHeaders(resp.headers), resp.extra)
  }

  /** A preflight never reaches the handler: any two handlers give the same
      answer, which allows credentials and a max age of one day. */
  lemma PreflightIgnoresHandler(h1: Event -> HandlerOutcome, h2: Event -> HandlerOutcome, event: Event)
    requires event.httpMethod == "OPTIONS"
    ensures Wrap(h1, event) == Wrap(h2, event)
    ensures Wrap(h1, event).headers[AllowCredentials] == "true"
    ensures Wrap(h1, event).headers[MaxAge] == "86400"
  {
  }

  /** Outside preflight the response carries a max age only if the handler
      supplied one. */
  lemma NoMaxAgeUnlessSupplied(handler: Event -> HandlerOutcome, event: Event)
    requires event.httpMethod != "OPTIONS"
    ensures MaxAge in Wrap(handler, event).headers <==>
      handler(event).Returned? && handler(event).response.headers.Some?
      && MaxAge in handler(event).response.headers.value
  {
  }

  /** Whatever the handler throws, the answer is the same 500. */
  lemma ErrorsLookAlike(h1: Event -> HandlerOutcome, h2: Event -> HandlerOutcome, event: Event)
    requires h1(event).Threw? && h2(event).Threw?
    ensures Wrap(h1, event) == Wrap(h2, event)
  {
  }
}
