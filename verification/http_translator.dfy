/** `ExceptionToHttpResponseTranslator.translate` as a pure map from an
    exception to the response the endpoint returns: a classified exception
    describes itself with its own status and reason; anything else becomes a
    fixed, opaque 500 (section 15.6.1 of RFC 9110, Internal Server Error). */
module HttpTranslator {
  import opened Results
  import opened Json
  import opened Dicts
  import opened ApplicationExceptions

  const ContentTypeHeader: string := "Content-Type"
  const ReasonHeader: string := "reason"
  const ExceptionTypeHeader: string := "X-Exception-Type"
  const JsonMediaType: string := "application/json"

  const UnhandledStatus: int := 500
  const UnhandledReason: string := "Unhandled Exception"
  const UnhandledMessage: string := "An unhandled exception occurred. Please contact support."

  /** The response: a JSON object body (section 4 of RFC 8259), a status code
      and the headers, all in the order `translate` writes them. */
  datatype HttpResponse = HttpResponse(body: Dict<JsonValue>, statusCode: int, headers: Dict<string>)

  function Headers(reason: string, typeName: string): (h: Dict<string>)
    ensures Keys(h) == [ContentTypeHeader, ReasonHeader, ExceptionTypeHeader]
  {
    [(ContentTypeHeader, JsonMediaType), (ReasonHeader, reason), (ExceptionTypeHeader, typeName)]
  }

  function Translate(ex: Exception): (r: HttpResponse)
    ensures Keys(r.headers) == [ContentTypeHeader, ReasonHeader, ExceptionTypeHeader]
    ensures Get(r.headers, ContentTypeHeader) == Some(JsonMediaType)
    ensures Get(r.headers, ExceptionTypeHeader) == Some(ex.TypeName())
    ensures ex.Classified? ==> r.statusCode == ex.app.kind.httpStatusCode
    ensures ex.Classified? ==> r.body == Encode(ex.app)
    ensures ex.Classified? ==>
      Keys(r.body) == [MessageKey] + Missing(Keys(ex.app.customDimensions), [MessageKey])
    ensures ex.Classified? ==> Get(r.headers, ReasonHeader) == Some(ex.app.kind.reason)
    ensures ex.Classified? ==>
      forall k :: k in Keys(r.body) <==> k == MessageKey || k in Keys(ex.app.customDimensions)
    ensures ex.Classified? ==>
      forall k :: k in Keys(ex.app.customDimensions) ==> Get(r.body, k) == Get(ex.app.customDimensions, k)
    ensures ex.Classified? && MessageKey !in Keys(ex.app.customDimensions) ==>
      Get(r.body, MessageKey) == Some(JString(ex.app.message))
    ensures ex.Unclassified? ==> r.statusCode == UnhandledStatus
    ensures ex.Unclassified? ==> Get(r.headers, ReasonHeader) == Some(UnhandledReason)
    ensures ex.Unclassified? ==> r.body == [(MessageKey, JString(UnhandledMessage))]
  {
    match ex
    case Classified(app) =>
      HttpResponse(Encode(app), app.kind.httpStatusCode, Headers(app.kind.reason, ex.TypeName()))
    case Unclassified(typeName, _) =>
      HttpResponse([(MessageKey, JString(UnhandledMessage))], UnhandledStatus, Headers(UnhandledReason, typeName))
  }

  /** A classified exception whose bag has no `Message` field yields exactly the
      body `{"Message": message, ...bag}`, from which message and bag are read back. */
  lemma ClassifiedBodyRoundTrip(app: ApplicationException)
    requires MessageKey !in Keys(app.customDimensions)
    ensures Translate(Classified(app)).body == [(MessageKey, JString(app.message))] + app.customDimensions
    ensures SplitBody(Translate(Classified(app)).body) == Some((app.message, app.customDimensions))
  {
    EncodeRoundTrip(app);
  }

  /** An unclassified exception's text never reaches the client: two such
      exceptions of the same type get the same response whatever their messages. */
  lemma UnclassifiedHidesMessage(typeName: string, m1: string, m2: string)
    ensures Translate(Unclassified(typeName, m1)) == Translate(Unclassified(typeName, m2))
    ensures forall k :: k in Keys(Translate(Unclassified(typeName, m1)).body) ==> k == MessageKey
  {
  }
}
