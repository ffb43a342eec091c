/** `ApplicationLogger`: decides, for each call, the level, the text template,
    the calling site, the message and the structured fields of the one record it
    emits. The logging sink itself is not modelled; each operation returns the
    record it would hand to `logger.log`. */
module ApplicationLogger {
  import opened Results
  import opened Json
  import opened Dicts
  import Severity
  import opened ApplicationExceptions

  const ApplicationTemplate: string :=
    "Application Exception caught in function: '%s' - Message: %s. Contextual Information: %s"
  const UnhandledTemplate: string :=
    "Unhandled exception caught in function: '%s' - Message: %s. Contextual Information: %s"
  const InformationTemplate: string :=
    "Information logged in function: '%s' - Message: %s. Contextual Information: %s"

  /** One structured record: the level, the format string and its three
      arguments (calling site, message, contextual information), and the
      `extra` fields attached to the record. */
  datatype LogRecord = LogRecord(
    level: int,
    template: string,
    callingSite: string,
    message: string,
    contextualInformation: Dict<JsonValue>,
    extra: Dict<JsonValue>)

  /** The outcome of `log_exception`: the exception as the logger leaves it
      (its bag may have grown) and the record emitted. */
  datatype Logged = Logged(exception: Exception, record: LogRecord)

  /** `{custom_dimensions: context}`, the fields of a record with no
      exception-derived data. */
  function ContextOnly(context: Dict<JsonValue>): (r: Dict<JsonValue>)
    ensures Keys(r) == [CustomDimensions]
    ensures Get(r, CustomDimensions) == Some(JObject(context))
  {
    [(CustomDimensions, JObject(context))]
  }

  /** `log_exception` with `__log_application_exception` and
      `__log_unhandled_exception`: exactly one of two branches. A classified
      exception first takes the extra context into its bag, then is logged at
      its own severity with its full contextual data; any other exception is
      logged at CRITICAL with the extra context alone. */
  function LogException(ex: Exception, additionalContext: Dict<JsonValue>, callingSite: string): (r: Logged)
    ensures r.record.callingSite == callingSite
    ensures r.record.message == ex.Message()
    ensures r.exception.Classified? == ex.Classified?
    ensures r.exception.TypeName() == ex.TypeName() && r.exception.Message() == ex.Message()
    ensures ex.Classified? ==> r.record.level == ex.app.kind.severity
    ensures ex.Classified? ==> r.record.template == ApplicationTemplate
    ensures ex.Classified? ==>
      && r.exception.app.kind == ex.app.kind
      && r.exception.app.logEvent == ex.app.logEvent
      && forall k :: Get(r.exception.app.customDimensions, k) == (if k in Keys(additionalContext)
                                                                 then Get(additionalContext, k)
                                                                 else Get(ex.app.customDimensions, k))
    ensures ex.Classified? ==> r.exception == Classified(AddContextualData(ex.app, additionalContext))
    ensures ex.Classified? ==>
      Keys(r.exception.app.customDimensions)
      == Keys(ex.app.customDimensions) + Missing(Keys(additionalContext), Keys(ex.app.customDimensions))
    ensures ex.Classified? ==>
      forall k :: k in Keys(ex.app.customDimensions) ==> k in Keys(r.exception.app.customDimensions)
    ensures ex.Classified? && WellFormed(ex.app) ==>
      WellFormed(r.exception.app) && Severity.IsLevel(r.record.level)
    ensures ex.Classified? ==> r.record.contextualInformation == r.exception.app.customDimensions
    ensures ex.Classified? ==> Keys(r.record.extra) == [CustomDimensions]
    ensures ex.Classified? ==> Get(r.record.extra, CustomDimensions) == Some(JObject(r.exception.app.customDimensions))
    ensures ex.Unclassified? ==> r.exception == ex
    ensures ex.Unclassified? ==> r.record.level == Severity.Critical
    ensures ex.Unclassified? ==> r.record.template == UnhandledTemplate
    ensures ex.Unclassified? ==> r.record.contextualInformation == additionalContext
    ensures ex.Unclassified? ==> r.record.extra == [(CustomDimensions, JObject(additionalContext))]
  {
    match ex
    case Classified(app) =>
      var app' := AddContextualData(app, additionalContext);
      Logged(Classified(app'), LogRecord(app'.kind.severity, ApplicationTemplate, callingSite, app'.message,
                                         app'.customDimensions, ContextualData(app')))
    case Unclassified(_, message) =>
      Logged(ex, LogRecord(Severity.Critical, UnhandledTemplate, callingSite, message,
                           additionalContext, ContextOnly(additionalContext)))
  }

  /** `log_information`: one record at INFO carrying the context alone. */
  function LogInformation(message: string, additionalContext: Dict<JsonValue>, callingSite: string): (r: LogRecord)
    ensures r.level == Severity.Info
    ensures r.template == InformationTemplate
    ensures r.callingSite == callingSite && r.message == message
    ensures r.contextualInformation == additionalContext
    ensures Keys(r.extra) == [CustomDimensions]
    ensures Get(r.extra, CustomDimensions) == Some(JObject(additionalContext))
  {
    LogRecord(Severity.Info, InformationTemplate, callingSite, message, additionalContext, ContextOnly(additionalContext))
  }

  /** With no extra context (the default argument), logging leaves the
      exception as it was. */
  lemma LogWithoutContextKeepsException(ex: Exception, callingSite: string)
    ensures LogException(ex, [], callingSite).exception == ex
  {
  }

  /** When the bag still holds its derived fields and the extra context does
      not replace them, the record's `Severity` field names the record's level. */
  lemma RecordSeverityFieldNamesLevel(app: ApplicationException, additionalContext: Dict<JsonValue>, callingSite: string)
    requires WellFormed(app) && DerivedFieldsIntact(app)
    requires AvoidsDerivedKeys(additionalContext)
    ensures var rec := LogException(Classified(app), additionalContext, callingSite).record;
      exists name :: Get(rec.contextualInformation, SeverityKey) == Some(JString(name))
                     && Severity.LevelOfName(name) == Some(rec.level)
  {
    var rec := LogException(Classified(app), additionalContext, callingSite).record;
    var name := Severity.SeverityName(app.kind.severity).value;
    Severity.NameRoundTrip(app.kind.severity, name);
    assert Get(rec.contextualInformation, SeverityKey) == Some(JString(name));
  }

  /** An information record and an unhandled-exception record carry their
      context the same way, with no exception-derived fields. */
  lemma InformationLikeUnhandled(message: string, typeName: string, context: Dict<JsonValue>, callingSite: string)
    ensures var info := LogInformation(message, context, callingSite);
      var unhandled := LogException(Unclassified(typeName, message), context, callingSite).record;
      && info.extra == unhandled.extra
      && info.contextualInformation == unhandled.contextualInformation
      && info.message == unhandled.message
      && info.level < unhandled.level
  {
  }
}
