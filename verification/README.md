# Exception classification, structured logging and HTTP translation

A Dafny model of the error pipeline of a small serverless HTTP endpoint. An
application exception carries its own severity, reason, HTTP status and a bag
of contextual fields (`custom_dimensions`). Two consumers read it:

- the **logger** hands exactly one structured record to `logger.log` per
  call. A classified exception is logged at its own severity. Before that, the
  caller's context is merged into its bag. Any other exception is logged at
  CRITICAL with the caller's context alone.
- the **HTTP translator** maps a classified exception to its own status, a
  `reason` header and a JSON body `{"Message": ..., ...bag}`. It maps any other
  exception to a fixed, opaque 500 response.

Everything is modelled as immutable values and pure functions:

- `results.dfy`: `Option` and `Result`.
- `json.dfy`: JSON values (RFC 8259).
- `dicts.dfy`: an insertion-ordered dictionary with Python `dict` semantics.
  Assigning an existing key keeps its position, a new key is appended, and
  `update` assigns in the argument's order. The properties of `update` are
  proved once here and reused.
- `decimal.dfy`: decimal text of integers, used in the invalid-severity error.
- `severity.dfy`: the severity table and `get_severity_str`.
- `application_exception.dfy`: the exception value and its constructor,
  `add_contextual_data`, and the JSON encoder. It also holds the two-way sum
  `Exception = Classified(...) | Unclassified(typeName, message)`, which
  replaces `isinstance` checks.
- `http_translator.dfy`: `ExceptionToHttpResponseTranslator.translate`.
- `application_logger.dfy`: `log_exception` and `log_information`. Each
  returns the record it would emit. `log_exception` also returns the exception
  as it leaves it, because the classified branch grows the bag in place.
- `request_flow.dfy`: the endpoint's catch block (log, then translate) and the
  validation-failure example.

A concrete exception class is an `ExceptionKind`: its class name and its
overrides of `severity`, `reason` and `http_status_code`. `BaseKind` holds the
base class's defaults. The calling-site label, which `log_exception` finds through
`inspect.stack()`, is an explicit parameter. `translate` is a function of its
argument, so two calls on the same exception give the same response.

Two behaviours of the code that the model keeps as written:

- A caller field that has the same key as a derived field (`LogEvent`,
  `Severity`, `Reason`, `HttpStatusCode`) replaces that field's value. The key
  keeps its place. The derived keys are therefore always present, but their
  values are guaranteed only when no caller field shadows them
  (`DerivedFieldsIntact`).
- Level 20 is named `Information`.

## Model

| member | source | states |
|---|---|---|
| Severity.SeverityName | domain_layer/managers/exceptions/application_base_exception.py:91-98 | succeeds exactly for levels 0, 10, 20, 30, 40, 50 with the names NotSet, Debug, Information, Warning, Error, Critical; every other integer fails with the invalid-level error for that integer |
| Severity.NameRoundTrip | domain_layer/managers/exceptions/application_base_exception.py:27-34 | the severity table is one-to-one: a name reported for a level reads back as that level and as no other |
| Severity.InvalidMessageNamesLevel | domain_layer/managers/exceptions/application_base_exception.py:96-98 | the ValueError text starts with "Invalid severity level: " and the rejected level can be read back from it |
| Decimal.FromIntRoundTrip | domain_layer/managers/exceptions/application_base_exception.py:97 | the decimal text written into the error message determines the integer |
| Dicts.Update | domain_layer/managers/exceptions/application_base_exception.py:76-77 | after `update`, each key of the argument has the argument's value and every other key keeps its old value; existing keys keep their order and the argument's new keys follow in the argument's order; no key is removed |
| Dicts.UpdateIdempotent | domain_layer/managers/exceptions/application_base_exception.py:76-77 | updating twice with the same fields gives the same dictionary as updating once |
| Dicts.PutTwice | domain_layer/managers/exceptions/application_base_exception.py:76-77 | assigning one key twice leaves only the later value, at the key's original position |
| Dicts.UpdateDisjoint | domain_layer/managers/exceptions/application_base_exception.py:10-13 | updating with keys not yet present appends them unchanged and in order |
| ApplicationExceptions.New | domain_layer/managers/exceptions/application_base_exception.py:36-62 | construction fails if and only if the severity has no name, and then with that level's error; on success the bag's keys are the four derived keys in their fixed order followed by the caller's new keys in the caller's order; every caller field wins on collision; each derived field the caller does not name keeps its derived value (LogEvent the event's value, Severity the level's name, Reason, HttpStatusCode) |
| ApplicationExceptions.BaseDefaultsBag | domain_layer/managers/exceptions/application_base_exception.py:79-89 | the base defaults are severity 40, reason "An error occurred" and status 400; with no extra fields the bag is exactly LogEvent, Severity "Error", Reason, HttpStatusCode 400 |
| ApplicationExceptions.ContextualData | domain_layer/managers/exceptions/application_base_exception.py:62 | the outer contextual data has exactly one key, `custom_dimensions`, holding the bag |
| ApplicationExceptions.AddContextualData | domain_layer/managers/exceptions/application_base_exception.py:76-77 | merging never removes or reorders a key and leaves kind, message and log event unchanged; the keys are the bag's keys in their order followed by the new context keys in context order; the merged fields win; well-formedness and intact derived fields are preserved |
| ApplicationExceptions.AddTwiceLatestWins | domain_layer/managers/exceptions/application_base_exception.py:76-77 | adding the same key twice is the same as adding only the latest value |
| ApplicationExceptions.AddIdempotent | domain_layer/managers/exceptions/application_base_exception.py:76-77 | adding the same fields again changes nothing |
| ApplicationExceptions.Encode | domain_layer/managers/exceptions/application_base_exception.py:7-14 | the encoded object's keys are `Message` followed by the bag's other keys in bag order; every bag field appears at the top level with its bag value; a bag field named `Message` replaces the message in place; no other keys appear |
| ApplicationExceptions.EncodeRoundTrip | domain_layer/managers/exceptions/application_base_exception.py:9-14 | without a bag field named `Message`, the body is the message followed by the bag, and both are read back from it |
| HttpTranslator.Translate | middleware/exception_to_http_translator.py:14-38 | the headers are always Content-Type application/json, reason and X-Exception-Type with the runtime class name; a classified exception gets its own status and reason and exactly the encoder's body: keys `Message` then the bag's other keys in bag order, every bag field with its bag value, and the `Message` field holding the message unless the bag has its own `Message` field, which overrides it; any other exception gets status 500, reason "Unhandled Exception" and the fixed support message as the only body field |
| HttpTranslator.ClassifiedBodyRoundTrip | middleware/exception_to_http_translator.py:15-24 | the classified body is exactly `{"Message": message, ...bag}` when the bag has no `Message` field, and the message and bag are read back from it |
| HttpTranslator.UnclassifiedHidesMessage | middleware/exception_to_http_translator.py:25-38 | the unclassified response does not depend on the exception's message; its body has no key but `Message` |
| ApplicationLogger.LogException | domain_layer/managers/loggers/application_logger.py:16-67 | each call takes exactly one branch and yields one record with the calling site and the message; classified: the exception becomes exactly the one `add_contextual_data` yields for the context (bag keys in their order, then new context keys; last write wins, nothing removed) and the record has the exception's own level and its full contextual data; unclassified: the exception is untouched, the level is CRITICAL (50) and the fields are exactly `{custom_dimensions: context}` |
| ApplicationLogger.LogInformation | domain_layer/managers/loggers/application_logger.py:69-80 | one record at INFO (20) with the calling site, the message and exactly `{custom_dimensions: context}` as its fields |
| ApplicationLogger.LogWithoutContextKeepsException | domain_layer/managers/loggers/application_logger.py:16-36 | logging with the default empty context leaves the exception unchanged |
| ApplicationLogger.RecordSeverityFieldNamesLevel | domain_layer/managers/loggers/application_logger.py:36-47 | when the derived fields are intact and the context does not shadow them, the record's `Severity` field is the name of the record's level |
| ApplicationLogger.InformationLikeUnhandled | domain_layer/managers/loggers/application_logger.py:49-80 | an information record and an unhandled-exception record carry the same context fields and message; the information level is the lower one |
| RequestFlow.HandleFailure | function_app.py:42-51 | logging then translating: a classified response has the exception's status and carries every context field the logger merged in, with the context's value; bag fields the context does not name keep their values; an unclassified failure is logged at CRITICAL and answered with the fixed 500 body |
| RequestFlow.FreshContextBody | function_app.py:42-51 | when neither the bag nor the context has a `Message` field and the context names no bag key, the answer's body is the message, then the bag in order, then the context fields in order |
| RequestFlow.ValidationFailureResponse | function_app.py:42-51 | the metadata-validation failure raised at domain_layer/domain_facade.py:48-54, logged at the endpoint with a context holding exactly `FunctionName`, `SpanId`, `invocationid`: the record is at ERROR and the answer has status 400, reason "An error occurred", X-Exception-Type MusicMetadataException, and the body Message, LogEvent, Severity "Error", Reason, HttpStatusCode 400, data, followed by the three context fields, in that order, assuming the base defaults |

## Left out

- JSON text: `json.dumps` whitespace and escaping are not modelled. The body is the ordered JSON object it would print.
- Non-JSON values: floating-point numbers are not modelled. Neither are values `json.dumps` cannot encode, such as an arbitrary object passed as an extra field.
- The logging sink: the `logging.Logger` call, `exc_info`, `stack_info` and `%s` interpolation are output-side I/O. The model returns the record's level, template, arguments and `extra` fields. Level filtering by the logger (`isEnabledFor`), which may drop the record, is not modelled.
- Calling-site discovery: `inspect.stack()` becomes a `callingSite` parameter.
- Python keyword binding: an extra field named `message`, `log_event` or `self` makes the constructor call itself fail in Python. The model accepts any key.
- Aliasing: `add_contextual_data` grows the exception's bag in place. The model returns the grown exception, and `RequestFlow.HandleFailure` passes it on to the translator.
- The Azure Functions host: `function_app.py` routing, `ensure_required_headers` and `get_span_id` are host plumbing over a library type that is not part of this model.
- The domain facade stub: `MusicMetadataException` and `MusicMetadata` are not part of this model. A subclass is an `ExceptionKind` with its own overrides.
- RequestFlow.ValidationFailureResponse: assumes that `MusicMetadataException` keeps the base severity, reason and status, and that the `MusicMetadata` object under `data` and the step's enum value are JSON values; neither class is part of this model, so the lemma takes both values as parameters.
