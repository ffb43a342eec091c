/** The boundary of the HTTP endpoint: a caught exception is logged, then
    translated, in that order, so the response describes the exception as the
    logger left it. */
module RequestFlow {
  import opened Results
  import opened Json
  import opened Dicts
  import Severity
  import opened ApplicationExceptions
  import opened HttpTranslator
  import opened ApplicationLogger

  datatype Outcome = Outcome(record: LogRecord, response: HttpResponse)

  /** Log with the invocation's context, then translate. A classified
      exception's response carries every context field the logger merged in;
      an unclassified one is logged at CRITICAL and answered with the opaque 500. */
  function HandleFailure(ex: Exception, context: Dict<JsonValue>, callingSite: string): (r: Outcome)
    ensures r.record.callingSite == callingSite && r.record.message == ex.Message()
    ensures ex.Classified? ==> r.record.level == ex.app.kind.severity
    ensures ex.Classified? ==> r.response.statusCode == ex.app.kind.httpStatusCode
    ensures ex.Classified? ==>
      forall k :: k in Keys(context) ==> Get(r.response.body, k) == Get(context, k)
    ensures ex.Classified? ==>
      forall k :: k in Keys(ex.app.customDimensions) && k !in Keys(context) ==>
        Get(r.response.body, k) == Get(ex.app.customDimensions, k)
    ensures ex.Unclassified? ==> r.record.level == Severity.Critical
    ensures ex.Unclassified? ==> r.response.statusCode == UnhandledStatus
    ensures ex.Unclassified? ==> r.response.body == [(MessageKey, JString(UnhandledMessage))]
  {
    var logged := LogException(ex, context, callingSite);
    Outcome(logged.record, Translate(logged.exception))
  }

  /** The validation failure the domain layer raises: a `MusicMetadataException`
      whose class overrides are taken to be the base class's defaults. */
  const ValidationKind: ExceptionKind := BaseKind.(typeName := "MusicMetadataException")
  const ValidationMessage: string := "Vector Database index generation failed for Metadata provided"

  function ExpectedBody(step: JsonValue, data: JsonValue): seq<(string, JsonValue)> {
    [ ("Message", JString(ValidationMessage)),
      ("LogEvent", step),
      ("Severity", JString("Error")),
      ("Reason", JString("An error occurred")),
      ("HttpStatusCode", JInt(400)),
      ("data", data) ]
  }

  /** When the invocation's context names none of the bag's fields and no field
      is named `Message`, the endpoint's body is the message, then the bag as
      raised, then the context the logger merged in, in that order. */
  lemma FreshContextBody(e: ApplicationException, context: Dict<JsonValue>, callingSite: string)
    requires MessageKey !in Keys(e.customDimensions) && MessageKey !in Keys(context)
    requires forall k :: k in Keys(context) ==> k !in Keys(e.customDimensions)
    ensures HandleFailure(Classified(e), context, callingSite).response.body
            == [(MessageKey, JString(e.message))] + e.customDimensions + context
  {
    var logged := AddContextualData(e, context);
    LoggedBody(e, context, callingSite);
    UpdateDisjoint(e.customDimensions, context);
    FreshContextEncoding(logged, e.customDimensions, context);
  }

  /** The endpoint answers with the encoding of the exception as the logger left it. */
  lemma LoggedBody(e: ApplicationException, context: Dict<JsonValue>, callingSite: string)
    ensures HandleFailure(Classified(e), context, callingSite).response.body
            == Encode(AddContextualData(e, context))
  {
    assert LogException(Classified(e), context, callingSite).exception
           == Classified(AddContextualData(e, context));
  }

  lemma FreshContextEncoding(logged: ApplicationException, bag: seq<(string, JsonValue)>, context: seq<(string, JsonValue)>)
    requires logged.customDimensions == bag + context
    requires MessageKey !in Keys(logged.customDimensions)
    ensures Encode(logged) == [(MessageKey, JString(logged.message))] + bag + context
  {
    EncodeRoundTrip(logged);
  }

  /** The keys the endpoint puts in the invocation's context. */
  const InvocationKeys: seq<string> := ["FunctionName", "SpanId", "invocationid"]

  /** The metadata-validation failure at the endpoint, raised with the failing
      step as its log event and the metadata under `data`, then logged with the
      invocation's context: the record is at ERROR and the answer has status 400,
      reason "An error occurred", and the body Message, LogEvent, Severity,
      Reason, HttpStatusCode, data, followed by the context's fields, in that
      order. */
  lemma ValidationFailureResponse(step: JsonValue, data: JsonValue, context: Dict<JsonValue>, callingSite: string)
    requires Keys(context) == InvocationKeys
    ensures var r := New(ValidationKind, ValidationMessage, LogEvent(step), [("data", data)]);
      && r.Success?
      && var out := HandleFailure(Classified(r.value), context, callingSite);
      && out.record.level == Severity.Error
      && out.response.statusCode == 400
      && out.response.headers == [
           ("Content-Type", "application/json"),
           ("reason", "An error occurred"),
           ("X-Exception-Type", "MusicMetadataException") ]
      && out.response.body == ExpectedBody(step, data) + context
  {
    var e := ValidationException(step, data);
    ValidationEndpointBody(e, step, data, context, callingSite);
    ValidationEndpointStatus(e, context, callingSite);
  }

  lemma ValidationEndpointBody(e: ApplicationException, step: JsonValue, data: JsonValue,
                               context: Dict<JsonValue>, callingSite: string)
    requires e.message == ValidationMessage
    requires e.customDimensions == DerivedFields(ValidationKind, "Error", LogEvent(step)) + [("data", data)]
    requires Keys(context) == InvocationKeys
    ensures HandleFailure(Classified(e), context, callingSite).response.body == ExpectedBody(step, data) + context
  {
    var bag := e.customDimensions;
    ValidationBody(e, step, data);
    EncodeRoundTrip(e);
    ValidationBagKeys(bag, step, data);
    InvocationKeysAvoidBag(Keys(bag), Keys(context));
    FreshContextBody(e, context, callingSite);
  }

  lemma ValidationBagKeys(bag: seq<(string, JsonValue)>, step: JsonValue, data: JsonValue)
    requires bag == DerivedFields(ValidationKind, "Error", LogEvent(step)) + [("data", data)]
    ensures Keys(bag) == ["LogEvent", "Severity", "Reason", "HttpStatusCode", "data"]
  {
  }

  lemma InvocationKeysAvoidBag(bagKeys: seq<string>, contextKeys: seq<string>)
    requires bagKeys == ["LogEvent", "Severity", "Reason", "HttpStatusCode", "data"]
    requires contextKeys == InvocationKeys
    ensures MessageKey !in contextKeys
    ensures forall k :: k in contextKeys ==> k !in bagKeys
  {
  }

  lemma ValidationEndpointStatus(e: ApplicationException, context: Dict<JsonValue>, callingSite: string)
    requires e.kind == ValidationKind
    ensures var out := HandleFailure(Classified(e), context, callingSite);
      && out.record.level == Severity.Error
      && out.response.statusCode == 400
      && out.response.headers == [
           ("Content-Type", "application/json"),
           ("reason", "An error occurred"),
           ("X-Exception-Type", "MusicMetadataException") ]
  {
    assert LogException(Classified(e), context, callingSite).exception
           == Classified(AddContextualData(e, context));
  }

  lemma ValidationBody(e: ApplicationException, step: JsonValue, data: JsonValue)
    requires e.message == ValidationMessage
    requires e.customDimensions == DerivedFields(ValidationKind, "Error", LogEvent(step)) + [("data", data)]
    ensures MessageKey !in Keys(e.customDimensions)
    ensures Encode(e) == ExpectedBody(step, data)
  {
    var derived := DerivedFields(ValidationKind, "Error", LogEvent(step));
    assert MessageKey !in Keys(e.customDimensions);
    EncodeRoundTrip(e);
    assert derived == [
      ("LogEvent", step),
      ("Severity", JString("Error")),
      ("Reason", JString("An error occurred")),
      ("HttpStatusCode", JInt(400)) ];
    var x := ExpectedBody(step, data);
    Splice(x[0], x[1], x[2], x[3], x[4], x[5]);
  }

  /** The exception itself: the derived fields followed by `data`. */
  lemma ValidationException(step: JsonValue, data: JsonValue) returns (e: ApplicationException)
    ensures New(ValidationKind, ValidationMessage, LogEvent(step), [("data", data)]) == Success(e)
    ensures e.kind == ValidationKind && e.message == ValidationMessage
    ensures e.customDimensions == DerivedFields(ValidationKind, "Error", LogEvent(step)) + [("data", data)]
  {
    var extra: Dict<JsonValue> := [("data", data)];
    assert Severity.SeverityName(Severity.Error) == Success("Error");
    var derived := DerivedFields(ValidationKind, "Error", LogEvent(step));
    e := ApplicationException(ValidationKind, ValidationMessage, LogEvent(step), Update(derived, extra));
    assert Keys(extra) == ["data"];
    UpdateDisjoint(derived, extra);
  }

  lemma Splice<T>(a: T, b: T, c: T, d: T, e: T, f: T)
    ensures [a] + ([b, c, d, e] + [f]) == [a, b, c, d, e, f]
  {
  }
}
