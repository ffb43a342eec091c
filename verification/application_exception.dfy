/** The application exception: a classified error carrying its own severity,
    reason and HTTP status, and a bag of contextual fields (`custom_dimensions`)
    that starts with four derived fields and can only grow. */
module ApplicationExceptions {
  import opened Results
  import opened Json
  import opened Dicts
  import Severity

  /** The single key of the outer contextual data. */
  const CustomDimensions: string := "custom_dimensions"

  const LogEventKey: string := "LogEvent"
  const SeverityKey: string := "Severity"
  const ReasonKey: string := "Reason"
  const HttpStatusCodeKey: string := "HttpStatusCode"

  /** The derived fields, in the order the constructor writes them. */
  const DerivedKeys: seq<string> := [LogEventKey, SeverityKey, ReasonKey, HttpStatusCodeKey]

  /** The key under which the JSON encoder writes the message. */
  const MessageKey: string := "Message"

  /** A member of a `LogEvent` enumeration; only its value is ever read. */
  datatype LogEvent = LogEvent(value: JsonValue)

  /** What a concrete exception class fixes: its name and its overrides of the
      `severity`, `reason` and `http_status_code` properties. */
  datatype ExceptionKind = ExceptionKind(typeName: string, severity: int, reason: string, httpStatusCode: int)

  /** The base class's own defaults. */
  const BaseKind: ExceptionKind :=
    ExceptionKind("ApplicationBaseException", Severity.Error, "An error occurred", 400)

  datatype ApplicationException = ApplicationException(
    kind: ExceptionKind,
    message: string,
    logEvent: LogEvent,
    customDimensions: Dict<JsonValue>)

  /** Any exception reaching the logger or the HTTP translator: a member of the
      application taxonomy, or any other runtime error. */
  datatype Exception =
    | Classified(app: ApplicationException)
    | Unclassified(typeName: string, errorMessage: string)
  {
    /** The exception's text, `str(e)`. */
    function Message(): string {
      match this
      case Classified(app) => app.message
      case Unclassified(_, m) => m
    }

    /** The runtime class name, `type(e).__name__`. */
    function TypeName(): string {
      match this
      case Classified(app) => app.kind.typeName
      case Unclassified(t, _) => t
    }
  }

  /** What every exception built by `New` and changed only by
      `AddContextualData` satisfies: its severity has a name, and the four
      derived keys lead the bag in their original order. */
  predicate WellFormed(e: ApplicationException) {
    && Severity.IsLevel(e.kind.severity)
    && |e.customDimensions| >= |DerivedKeys|
    && Keys(e.customDimensions)[..|DerivedKeys|] == DerivedKeys
  }

  /** The derived fields still hold the values derived from the exception's own
      properties (no caller field has replaced them). */
  predicate DerivedFieldsIntact(e: ApplicationException)
    requires Severity.IsLevel(e.kind.severity)
  {
    && Get(e.customDimensions, LogEventKey) == Some(e.logEvent.value)
    && Get(e.customDimensions, SeverityKey) == Some(JString(Severity.SeverityName(e.kind.severity).value))
    && Get(e.customDimensions, ReasonKey) == Some(JString(e.kind.reason))
    && Get(e.customDimensions, HttpStatusCodeKey) == Some(JInt(e.kind.httpStatusCode))
  }

  /** None of the dictionary's keys is a derived key. */
  predicate AvoidsDerivedKeys(d: Dict<JsonValue>) {
    forall k :: k in Keys(d) ==> k !in DerivedKeys
  }

  /** `ApplicationBaseException(message, log_event, **context_data)`: the bag is
      the four derived fields with the caller's fields spread over them; naming
      the severity fails for a level outside the table. */
  function New(kind: ExceptionKind, message: string, logEvent: LogEvent, contextData: Dict<JsonValue>)
    : (r: Result<ApplicationException, Severity.SeverityError>)
    ensures r.Success? <==> Severity.IsLevel(kind.severity)
    ensures r.Failure? ==> r.error == Severity.InvalidSeverityLevel(kind.severity)
    ensures r.Success? ==> r.value.kind == kind && r.value.message == message && r.value.logEvent == logEvent
    ensures r.Success? ==> WellFormed(r.value)
    ensures r.Success? ==> forall k :: k in Keys(r.value.customDimensions) <==> k in DerivedKeys || k in Keys(contextData)
    ensures r.Success? ==> forall k :: k in Keys(contextData) ==> Get(r.value.customDimensions, k) == Get(contextData, k)
    ensures r.Success? ==>
      Keys(r.value.customDimensions) == DerivedKeys + Missing(Keys(contextData), DerivedKeys)
    ensures r.Success? && LogEventKey !in Keys(contextData) ==>
      Get(r.value.customDimensions, LogEventKey) == Some(logEvent.value)
    ensures r.Success? && SeverityKey !in Keys(contextData) ==>
      exists name :: Get(r.value.customDimensions, SeverityKey) == Some(JString(name))
                     && Severity.SeverityName(kind.severity) == Success(name)
    ensures r.Success? && ReasonKey !in Keys(contextData) ==>
      Get(r.value.customDimensions, ReasonKey) == Some(JString(kind.reason))
    ensures r.Success? && HttpStatusCodeKey !in Keys(contextData) ==>
      Get(r.value.customDimensions, HttpStatusCodeKey) == Some(JInt(kind.httpStatusCode))
    ensures r.Success? && AvoidsDerivedKeys(contextData) ==> DerivedFieldsIntact(r.value)
  {
    var name :- Severity.SeverityName(kind.severity);
    var derived := DerivedFields(kind, name, logEvent);
    var e := ApplicationException(kind, message, logEvent, Update(derived, contextData));
    SpreadKeepsDerivedFirst(derived, contextData);
    SpreadKeepsDerivedValues(e, derived, contextData);
    Success(e)
  }

  /** The four derived fields, before the caller's fields are spread over them. */
  function DerivedFields(kind: ExceptionKind, severityName: string, logEvent: LogEvent): (r: Dict<JsonValue>)
    ensures Keys(r) == DerivedKeys
  {
    [ (LogEventKey, logEvent.value),
      (SeverityKey, JString(severityName)),
      (ReasonKey, JString(kind.reason)),
      (HttpStatusCodeKey, JInt(kind.httpStatusCode)) ]
  }

  lemma SpreadKeepsDerivedFirst(derived: Dict<JsonValue>, contextData: Dict<JsonValue>)
    requires Keys(derived) == DerivedKeys
    ensures var dims := Update(derived, contextData);
      && Keys(dims) == DerivedKeys + Missing(Keys(contextData), DerivedKeys)
      && |dims| >= |DerivedKeys| && Keys(dims)[..|DerivedKeys|] == DerivedKeys
  {
    var dims := Update(derived, contextData);
    assert Keys(dims) == DerivedKeys + Missing(Keys(contextData), DerivedKeys);
  }

  /** A derived field the caller does not name keeps its derived value, whatever
      the caller does with the other three. */
  lemma SpreadKeepsDerivedValues(e: ApplicationException, derived: Dict<JsonValue>, contextData: Dict<JsonValue>)
    requires Severity.IsLevel(e.kind.severity)
    requires derived == DerivedFields(e.kind, Severity.SeverityName(e.kind.severity).value, e.logEvent)
    requires e.customDimensions == Update(derived, contextData)
    ensures LogEventKey !in Keys(contextData) ==> Get(e.customDimensions, LogEventKey) == Some(e.logEvent.value)
    ensures SeverityKey !in Keys(contextData) ==>
      Get(e.customDimensions, SeverityKey) == Some(JString(Severity.SeverityName(e.kind.severity).value))
    ensures ReasonKey !in Keys(contextData) ==> Get(e.customDimensions, ReasonKey) == Some(JString(e.kind.reason))
    ensures HttpStatusCodeKey !in Keys(contextData) ==>
      Get(e.customDimensions, HttpStatusCodeKey) == Some(JInt(e.kind.httpStatusCode))
    ensures AvoidsDerivedKeys(contextData) ==> DerivedFieldsIntact(e)
  {
    forall i | 0 <= i < |DerivedKeys| && DerivedKeys[i] !in Keys(contextData)
      ensures Get(e.customDimensions, DerivedKeys[i]) == Some(derived[i].1)
    {
      assert Get(derived, DerivedKeys[i]) == Some(derived[i].1);
    }
    assert LogEventKey == DerivedKeys[0] && SeverityKey == DerivedKeys[1];
    assert ReasonKey == DerivedKeys[2] && HttpStatusCodeKey == DerivedKeys[3];
  }

  /** With the base class's defaults and no extra fields, construction succeeds
      and the bag is exactly LogEvent, Severity "Error", Reason "An error
      occurred" and HttpStatusCode 400, in that order. */
  lemma BaseDefaultsBag(message: string, logEvent: LogEvent)
    ensures BaseKind.severity == Severity.Error && BaseKind.reason == "An error occurred"
    ensures BaseKind.httpStatusCode == 400
    ensures var r := New(BaseKind, message, logEvent, []);
      && r.Success?
      && r.value.customDimensions == [
           (LogEventKey, logEvent.value),
           (SeverityKey, JString("Error")),
           (ReasonKey, JString("An error occurred")),
           (HttpStatusCodeKey, JInt(400)) ]
  {
  }

  /** The outer contextual data: one key, `custom_dimensions`, holding the bag. */
  function ContextualData(e: ApplicationException): (r: Dict<JsonValue>)
    ensures Keys(r) == [CustomDimensions]
    ensures Get(r, CustomDimensions) == Some(JObject(e.customDimensions))
  {
    [(CustomDimensions, JObject(e.customDimensions))]
  }

  /** `add_contextual_data`: merges more fields into the bag, last write wins. */
  function AddContextualData(e: ApplicationException, value: Dict<JsonValue>): (r: ApplicationException)
    ensures r.kind == e.kind && r.message == e.message && r.logEvent == e.logEvent
    ensures forall k :: Get(r.customDimensions, k) == (if k in Keys(value)
                                                        then Get(value, k)
                                                        else Get(e.customDimensions, k))
    ensures |e.customDimensions| <= |r.customDimensions|
    ensures Keys(r.customDimensions)[..|e.customDimensions|] == Keys(e.customDimensions)
    ensures Keys(r.customDimensions) == Keys(e.customDimensions) + Missing(Keys(value), Keys(e.customDimensions))
    ensures forall k :: k in Keys(r.customDimensions) <==> k in Keys(e.customDimensions) || k in Keys(value)
    ensures WellFormed(e) ==> WellFormed(r)
    ensures WellFormed(e) && DerivedFieldsIntact(e) && AvoidsDerivedKeys(value) ==> DerivedFieldsIntact(r)
  {
    e.(customDimensions := Update(e.customDimensions, value))
  }

  /** `ApplicationBaseExceptionJsonEncoder.default`: `{"Message": message}`
      updated with the bag, so every bag field appears at the top level, and a
      bag field named `Message` replaces the message. */
  function Encode(e: ApplicationException): (body: Dict<JsonValue>)
    ensures |body| >= 1 && body[0].0 == MessageKey
    ensures Keys(body) == [MessageKey] + Missing(Keys(e.customDimensions), [MessageKey])
    ensures Get(body, MessageKey) ==
      (if MessageKey in Keys(e.customDimensions) then Get(e.customDimensions, MessageKey)
       else Some(JString(e.message)))
    ensures forall k :: k in Keys(e.customDimensions) ==> Get(body, k) == Get(e.customDimensions, k)
    ensures forall k :: k in Keys(body) <==> k == MessageKey || k in Keys(e.customDimensions)
  {
    var head: Dict<JsonValue> := [(MessageKey, JString(e.message))];
    var body := Update(head, e.customDimensions);
    assert Keys(head) == [MessageKey];
    assert Keys(body)[0] == Keys(head)[0] == MessageKey;
    body
  }

  /** Reads an encoded body back into its message and its remaining fields. */
  function SplitBody(body: Dict<JsonValue>): Option<(string, Dict<JsonValue>)> {
    if |body| >= 1 && body[0].0 == MessageKey && body[0].1.JString? then
      Some((body[0].1.s, body[1..]))
    else None
  }

  /** When no bag field is named `Message`, the body is the message followed by
      the bag, and both are recovered from it. */
  lemma EncodeRoundTrip(e: ApplicationException)
    requires MessageKey !in Keys(e.customDimensions)
    ensures Encode(e) == [(MessageKey, JString(e.message))] + e.customDimensions
    ensures SplitBody(Encode(e)) == Some((e.message, e.customDimensions))
  {
    UpdateDisjoint([(MessageKey, JString(e.message))], e.customDimensions);
  }

  /** Adding the same key twice leaves only the latest value. */
  lemma AddTwiceLatestWins(e: ApplicationException, k: string, v1: JsonValue, v2: JsonValue)
    ensures AddContextualData(AddContextualData(e, [(k, v1)]), [(k, v2)]) == AddContextualData(e, [(k, v2)])
  {
    UpdateSingleton(e.customDimensions, k, v1);
    UpdateSingleton(Put(e.customDimensions, k, v1), k, v2);
    UpdateSingleton(e.customDimensions, k, v2);
    PutTwice(e.customDimensions, k, v1, v2);
  }

  /** Adding the same fields again changes nothing. */
  lemma AddIdempotent(e: ApplicationException, value: Dict<JsonValue>)
    ensures AddContextualData(AddContextualData(e, value), value) == AddContextualData(e, value)
  {
    UpdateIdempotent(e.customDimensions, value);
  }
}
