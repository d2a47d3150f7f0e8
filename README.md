# Albelli.OpenTelemetry in Dafny

A model of Albelli.OpenTelemetry, a set of small .NET libraries. They carry
OpenTelemetry trace context through AWS SQS and SNS messages, through ASP.NET
Core requests and through AWS Lambda event handlers. The model also proves
properties of it.

What is modelled:

- **Outgoing SQS/SNS calls.** The AWS SDK pipeline handlers start a Producer
  span around the call and let the propagator write the span's context into
  the request.
  - SQS: into the message attributes, or into the attribute-name allow-list
    of a receive.
  - SNS: into the message attributes of a publish.
  - For both services: into the wire headers.
- **The carrier rules.** SQS never overwrites an attribute that is already
  there, and treats `"All"` in the allow-list as a sentinel. SNS always
  overwrites. Header setters always overwrite.
- **The pipeline customizers.** They insert the two handlers into an SDK
  client's pipeline at most once.
- **The ASP.NET Core correlation proxy.** It turns an incoming
  `X-CorrelationId` GUID into the trace id of the request span's parent.
- **The Lambda helpers.** They read trace context back out of SQS and SNS
  events and start Consumer spans.
- **The logging helper.** It decorates every `ILoggerFactory` registration in
  a service collection.

State the source changes in place stays in place in the model:

- spans (`Activity`), request objects, the pipeline's handler list, the
  proxy's subscription list, the record handler's `_activity` field and the
  service collection are classes whose methods change their fields;
- the attribute maps and lists inside them are `map`/`seq` fields that those
  methods reassign.

Each propagator setter callback is a function on one field. A whole
`Inject` run is a loop over the fields the propagator emits, proved equal to
a left fold of that function. The folds carry the properties: no overwrite,
the `"All"` sentinel, overwrite-last-wins, and idempotence.

Parts of .NET and the AWS SDK are given as parameters, because their source
is not part of this model:

- the ambient `Activity.Current` and `Baggage.Current`;
- the sampling decision of `ActivitySource.StartActivity`;
- the propagator (a pair of functions);
- how the library answers `SetParentId`;
- `ActivityContext.Parse`;
- the outcome of the inner pipeline handler.

Where the model departs from the source as written:

- Both customizers construct their handlers with parameterless constructors
  (`OpenTelemetrySqsPipelineCustomizer.cs:18-19`,
  `OpenTelemetrySnsPipelineCustomizer.cs:18-19`). The handler classes only
  declare constructors that take a `TextMapPropagator`. The model passes a
  propagator to `Customize`, which hands it to the handlers.
- `OpenTelemetrySqs.Source` and `OpenTelemetrySns.Source`, which the
  attribute handlers start their spans from, are not declared in
  `OpenTelemetrySqs.cs` or `OpenTelemetrySns.cs`. The model does not name
  activity sources.
- `HookBefore` hands `ActivityContext.Parse` the two attributes, which are
  null when a record has none. In .NET, `Parse` throws for a null
  `traceparent`. The model takes `Parse` as a parameter that may throw, and
  proves that when it throws the exception escapes and `_activity` is left
  unchanged.

## Model

| member | source | states |
|---|---|---|
| Core.SafeGetContext | src/Albelli.OpenTelemetry.Core/ActivityExtensions.cs:11-24 | The result is the span's own context if there is a span. Otherwise it is the current span's context, and with neither it is the default context. It reads only, and is total. |
| Core.AddMessagingTags | src/Albelli.OpenTelemetry.SQS/OpenTelemetrySqsMessageAttributePipelineHandler.cs:110-115 | On a non-null span it sets `messaging.system` to the given system and `messaging.destination_kind` to `queue`. Other tags, the parent and the stopped flag are unchanged. On a null span it does nothing. |
| Core.FallbackParentIsCurrent | src/Albelli.OpenTelemetry.Lambda.SQSEvents/SqsActivityProvider.cs:28-36 | An extraction that returns its fallback, `SafeGetContext(Activity.Current)`, parents the new span exactly as passing no parent would: under the current span. |
| Core.Accepted | src/Albelli.OpenTelemetry.SQS/OpenTelemetrySqsMessageAttributePipelineHandler.cs:93-98 | A setter accepts at most one write per field. Every accepted write comes from a field whose value is not blank, and whose key is not blank when the setter checks keys. |
| Core.OverwriteAt | src/Albelli.OpenTelemetry.SNS/OpenTelemetrySnsMessageAttributePipelineHandler.cs:57-69 | After a run of overwriting writes, a key is present iff it was present before or was written. A written key holds the last value written for it. Any other key keeps its old entry. |
| Core.OverwriteIdempotent | src/Albelli.OpenTelemetry.SNS/OpenTelemetrySnsMessageAttributePipelineHandler.cs:57-69 | Running the same overwriting writes twice leaves the carrier exactly as one run does. |
| SqsCarriers.TryAddAttribute | src/Albelli.OpenTelemetry.SQS/OpenTelemetrySqs.cs:26-38 | Every existing attribute is kept unchanged. The key set grows by `key` exactly when the value is not blank. A newly added key holds `{DataType: "String", StringValue: value}`. |
| SqsCarriers.TryAddName | src/Albelli.OpenTelemetry.SQS/OpenTelemetrySqs.cs:54-63 | If `key` or `"All"` was already there, the list is unchanged. Otherwise exactly `key` is appended. The key is not blank-checked. |
| SqsCarriers.TryAddAttributeIdempotent | src/Albelli.OpenTelemetry.SQS/OpenTelemetrySqs.cs:30-37 | Two `TryAdd` calls with the same key and value equal one. |
| SqsCarriers.TryAddNameIdempotent | src/Albelli.OpenTelemetry.SQS/OpenTelemetrySqs.cs:58-63 | Two allow-list `TryAdd` calls with the same key equal one. |
| SqsCarriers.TryAddHeader | src/Albelli.OpenTelemetry.SQS/OpenTelemetrySqs.cs:16-24 | A null request or a blank value changes nothing. Otherwise the header is set, overwriting any earlier value, and no other header changes. |
| SqsCarriers.TryAddSendMessage | src/Albelli.OpenTelemetry.SQS/OpenTelemetrySqs.cs:26-38 | Afterwards the attribute map is never null, even when the value is blank. It is the old map (or an empty one) after `TryAddAttribute`. |
| SqsCarriers.TryAddBatchEntry | src/Albelli.OpenTelemetry.SQS/OpenTelemetrySqs.cs:40-52 | The same initialise-then-add-if-absent rule, for one batch entry. |
| SqsCarriers.TryAddReceiveMessage | src/Albelli.OpenTelemetry.SQS/OpenTelemetrySqs.cs:54-63 | Afterwards the allow-list is never null. It is the old list (or an empty one) after `TryAddName`. |
| SqsCarriers.InjectAttributesStep | src/Albelli.OpenTelemetry.SQS/OpenTelemetrySqsMessageAttributePipelineHandler.cs:93-107 | One call of the attribute setter extends the non-overwriting run by that field's accepted write, if any. A blank key or value adds nothing. |
| SqsCarriers.InjectNamesStep | src/Albelli.OpenTelemetry.SQS/OpenTelemetrySqsMessageAttributePipelineHandler.cs:79-91 | The same for the allow-list setter. |
| SqsCarriers.AddAbsentAt | src/Albelli.OpenTelemetry.SQS/OpenTelemetrySqsMessageAttributePipelineHandler.cs:93-107 | After a run of SQS attribute writes, a key is present iff it was present before or was written. An existing attribute is never overwritten. A new key holds the first value written for it, typed `"String"`. |
| SqsCarriers.AddAbsentIdempotent | src/Albelli.OpenTelemetry.SQS/OpenTelemetrySqsMessageAttributePipelineHandler.cs:93-107 | Injecting the same context twice leaves the attributes as one injection does. |
| SqsCarriers.AddNamesShape | src/Albelli.OpenTelemetry.SQS/OpenTelemetrySqsMessageAttributePipelineHandler.cs:79-91 | An allow-list run only appends, at most one name per write, and every appended name is the key of some write. A list holding `"All"` is unchanged. Afterwards every written key is asked for, or `"All"` is present. |
| SqsCarriers.AddNamesNoDuplicates | src/Albelli.OpenTelemetry.SQS/OpenTelemetrySqsMessageAttributePipelineHandler.cs:86-90 | A list without repeated names gets none from a run. |
| SqsCarriers.AddNamesNoOp | src/Albelli.OpenTelemetry.SQS/OpenTelemetrySqsMessageAttributePipelineHandler.cs:86-90 | A run whose keys are all listed already, or that meets `"All"`, changes nothing. |
| SqsCarriers.AddNamesIdempotent | src/Albelli.OpenTelemetry.SQS/OpenTelemetrySqsMessageAttributePipelineHandler.cs:79-91 | Injecting the same context twice into an allow-list equals injecting it once. |
| SqsAttributeHandler.InjectAttributes | src/Albelli.OpenTelemetry.SQS/OpenTelemetrySqsMessageAttributePipelineHandler.cs:93-107 | Running the setter over the propagator's fields yields the non-overwriting run of the writes it accepts. |
| SqsAttributeHandler.InjectNames | src/Albelli.OpenTelemetry.SQS/OpenTelemetrySqsMessageAttributePipelineHandler.cs:79-91 | Running the allow-list setter over the fields yields the allow-list run of the accepted writes. |
| SqsAttributeHandler.InjectBatch | src/Albelli.OpenTelemetry.SQS/OpenTelemetrySqsMessageAttributePipelineHandler.cs:65-70 | Every batch entry, including one listed twice, ends with a non-null map. That map is its old one (or an empty one) after the same run of writes. |
| SqsAttributeHandler.MessageAttributePipelineHandler.ApplyOpenTelemetry | src/Albelli.OpenTelemetry.SQS/OpenTelemetrySqsMessageAttributePipelineHandler.cs:37-77 | A null or non-SQS request gets no span, and nothing is changed. An SQS request gets a Producer span named `"<RequestName> send"` unless unsampled. The span's parent is the current span, and it carries exactly the two messaging tags. Receive, send and batch requests get the writes for `SafeGetContext(span)` and the current baggage, into a collection that is never null afterwards. |
| SqsAttributeHandler.MessageAttributePipelineHandler.Invoke | src/Albelli.OpenTelemetry.SQS/OpenTelemetrySqsMessageAttributePipelineHandler.cs:24-35 | The inner handler is called exactly once, with the span open. The result (return or throw) is passed through. The span exists exactly for a sampled SQS request: a Producer `"<RequestName> send"` under the current span with the two messaging tags, stopped afterwards on every path. The request leaves with the same injected allow-list, attributes or batch-entry attributes as `ApplyOpenTelemetry` states. |
| SqsHttpHandler.TracedHeadersUnfold | src/Albelli.OpenTelemetry.SQS/OpenTelemetrySqsHttpRequestPipelineHandler.cs:32-36 | The two `TryAdd` calls, `traceparent` then `tracestate`, each skipped when blank, are the overwriting run of the accepted writes. |
| SqsHttpHandler.AddTracingDataIfAbsent | src/Albelli.OpenTelemetry.SQS/OpenTelemetrySqsHttpRequestPipelineHandler.cs:24-37 | Only an SQS request with a marshalled request is touched. Its headers receive the current span's `Id` and `TraceStateString`, overwriting. |
| SqsHttpHandler.Invoke | src/Albelli.OpenTelemetry.SQS/OpenTelemetrySqsHttpRequestPipelineHandler.cs:11-22 | The headers are written before the inner handler runs, which is called once and sees them. Its result is passed through. |
| SqsHttpHandler.NoCurrentSpanNoHeaders | src/Albelli.OpenTelemetry.SQS/OpenTelemetrySqsHttpRequestPipelineHandler.cs:33-36 | With no current span the headers are unchanged. |
| SqsHttpHandler.TraceParentOverwritten | src/Albelli.OpenTelemetry.SQS/OpenTelemetrySqsHttpRequestPipelineHandler.cs:35-36 | With a current span whose id is not blank, `traceparent` holds that id afterwards, even if it was present before. Only the two tracing headers can change. |
| SnsCarriers.SetAttribute | src/Albelli.OpenTelemetry.SNS/OpenTelemetrySns.cs:26-39 | A blank value changes nothing and creates no map. Otherwise the map exists, gains exactly `key`, holds the String attribute under `key` (replacing any earlier one), and keeps every other key. |
| SnsCarriers.TrySetAttribute | src/Albelli.OpenTelemetry.SNS/OpenTelemetrySns.cs:26-39 | A null request is ignored. Otherwise the request's map becomes `SetAttribute` of the old one. |
| SnsCarriers.TrySetHeader | src/Albelli.OpenTelemetry.SNS/OpenTelemetrySns.cs:16-24 | A null request or blank value changes nothing. Otherwise the header is set, overwriting. |
| SnsCarriers.SetAttributeIdempotent | src/Albelli.OpenTelemetry.SNS/OpenTelemetrySns.cs:33-38 | Setting the same attribute twice equals setting it once. |
| SnsCarriers.SnsReplacesWhereSqsKeeps | src/Albelli.OpenTelemetry.SNS/OpenTelemetrySns.cs:34-38 | For a key already present, SNS's `TrySetAttribute` stores the new value, while SQS's `TryAdd` keeps the old one. |
| SnsAttributeHandler.InjectAttributes | src/Albelli.OpenTelemetry.SNS/OpenTelemetrySnsMessageAttributePipelineHandler.cs:57-69 | Running the setter over the fields yields the overwriting run of the writes it accepts (blank keys and values skipped, String-typed values). |
| SnsAttributeHandler.MessageAttributePipelineHandler.ApplyOpenTelemetry | src/Albelli.OpenTelemetry.SNS/OpenTelemetrySnsMessageAttributePipelineHandler.cs:35-55 | Only a `PublishRequest` is instrumented. It gets a Producer span `"<RequestName> send"` unless unsampled, tagged `AmazonSNS` and `queue`. Its attribute map is never null afterwards and holds the overwriting run of the writes. |
| SnsAttributeHandler.MessageAttributePipelineHandler.Invoke | src/Albelli.OpenTelemetry.SNS/OpenTelemetrySnsMessageAttributePipelineHandler.cs:23-33 | The inner handler is called once, with the span open. Its result is passed through. A sampled publish gets a Producer `"<RequestName> send"` under the current span with the two messaging tags, stopped afterwards on every path. The publish request leaves with the overwriting run of the writes in its attribute map. |
| SnsHeaderHandler.InjectHeaders | src/Albelli.OpenTelemetry.SNS/OpenTelemetrySnsHeaderPipelineHandler.cs:49-57 | Running the header setter over the fields yields the overwriting run of the writes with non-blank values. Keys are not checked. |
| SnsHeaderHandler.HttpRequestPipelineHandler.ApplyOpenTelemetry | src/Albelli.OpenTelemetry.SNS/OpenTelemetrySnsHeaderPipelineHandler.cs:34-47 | Only a `PublishRequest` is touched. Its wire headers get the writes for `SafeGetContext(Activity.Current)` and the current baggage. A publish with no marshalled request throws a null reference. |
| SnsHeaderHandler.HttpRequestPipelineHandler.Invoke | src/Albelli.OpenTelemetry.SNS/OpenTelemetrySnsHeaderPipelineHandler.cs:22-32 | The headers are written before the inner call, which sees them. If writing them throws, the inner handler is never called. |
| AwsSdk.FirstMarshaller | src/Albelli.OpenTelemetry.SQS/OpenTelemetrySqsPipelineCustomizer.cs:18 | Finds the outermost `Marshaller`: every handler before it is something else. None means the pipeline has none. |
| AwsSdk.RuntimePipeline.AddHandlerAfterMarshaller | src/Albelli.OpenTelemetry.SQS/OpenTelemetrySqsPipelineCustomizer.cs:18 | The handler is inserted right after the first `Marshaller`. Without one it throws `InvalidOperationException` and the list is unchanged. |
| AwsSdk.RuntimePipeline.AddHandler | src/Albelli.OpenTelemetry.SQS/OpenTelemetrySqsPipelineCustomizer.cs:19 | The handler becomes the outermost one. |
| PipelineCustomization.CustomizeInserts | src/Albelli.OpenTelemetry.SQS/OpenTelemetrySqsPipelineCustomizer.cs:17-19 | On a pipeline without the attribute handler, exactly two handlers are added: the attribute handler outermost, the header handler right after the first `Marshaller`. The others keep their order. Without a `Marshaller`, it throws and adds nothing. |
| PipelineCustomization.CustomizeIdempotent | src/Albelli.OpenTelemetry.SQS/OpenTelemetrySqsPipelineCustomizer.cs:11-19 | Customizing twice gives the same handler list as once. |
| PipelineCustomization.CustomizeLeavesOne | src/Albelli.OpenTelemetry.SQS/OpenTelemetrySqsPipelineCustomizer.cs:11-19 | After one or two runs, the pipeline holds exactly one attribute handler. |
| SqsCustomizer.Customize | src/Albelli.OpenTelemetry.SQS/OpenTelemetrySqsPipelineCustomizer.cs:9-20 | A pipeline that already has an SQS attribute handler is unchanged. Otherwise the header handler follows the `Marshaller` and the attribute handler is outermost, or the `Marshaller` lookup's exception escapes. |
| SqsCustomizer.SqsCustomizeTwiceIsOnce | src/Albelli.OpenTelemetry.SQS/OpenTelemetrySqsPipelineCustomizer.cs:11-19 | Registering the SQS customizer twice equals once, and leaves exactly one SQS attribute handler. |
| SnsCustomizer.Customize | src/Albelli.OpenTelemetry.SNS/OpenTelemetrySnsPipelineCustomizer.cs:9-20 | The same for SNS and its two handlers. |
| SnsCustomizer.SnsCustomizeTwiceIsOnce | src/Albelli.OpenTelemetry.SNS/OpenTelemetrySnsPipelineCustomizer.cs:11-19 | Registering the SNS customizer twice equals once, and leaves exactly one SNS attribute handler. |
| Guids.ParseHex | src/Albelli.OpenTelemetry.AspNetCore/AlbelliAspNetCoreCorrelationProxy.cs:100 | A string parses as hex digits iff every character is a hex digit of either case. Each digit's value is that character's value. |
| Guids.FormatN | src/Albelli.OpenTelemetry.AspNetCore/AlbelliAspNetCoreCorrelationProxy.cs:61 | `ToString("N")` is 32 characters, each the lower-case digit of the GUID's nibble. |
| Guids.ParseFormatN | src/Albelli.OpenTelemetry.AspNetCore/AlbelliAspNetCoreCorrelationProxy.cs:100 | `TryParse` of the N form gives back the GUID. |
| Guids.ParseFormatD | src/Albelli.OpenTelemetry.AspNetCore/AlbelliAspNetCoreCorrelationProxy.cs:100 | `TryParse` of the D form (with hyphens) gives back the GUID. |
| Guids.FormatNTraceId | src/Albelli.OpenTelemetry.AspNetCore/AlbelliAspNetCoreCorrelationProxy.cs:101-103 | A GUID other than `Guid.Empty` prints as a valid W3C trace id: 32 lower-case hex digits, not all zero. |
| Guids.DFormToN | src/Albelli.OpenTelemetry.AspNetCore/AlbelliAspNetCoreCorrelationProxy.cs:61 | The trace id made from a D-form correlation id is its digits without the hyphens, lower-cased. |
| AspNetCore.TryResolveCorrelationId | src/Albelli.OpenTelemetry.AspNetCore/AlbelliAspNetCoreCorrelationProxy.cs:96-111 | Succeeds iff `X-CorrelationId` is present with at least one value, and the first value parses as a GUID other than `Guid.Empty`. The result is that GUID. |
| AspNetCore.Bridge | src/Albelli.OpenTelemetry.AspNetCore/AlbelliAspNetCoreCorrelationProxy.cs:59-84 | A bridge happens only with a current span and a resolved id, and the parent trace id is the GUID's N form. It is a plain `SetParentId` iff the span is W3C without a parent. It is a guarded attempt iff the span is Hierarchical. |
| AspNetCore.Start | src/Albelli.OpenTelemetry.AspNetCore/AlbelliAspNetCoreCorrelationProxy.cs:51-86 | A null context changes nothing. Otherwise the span's parent id becomes (N form, `ffffffffffffffff`) when bridged and accepted. An exception from `SetParentId` escapes only in the W3C case. Tags and the stopped flag never change. |
| AspNetCore.OnNext | src/Albelli.OpenTelemetry.AspNetCore/AlbelliAspNetCoreCorrelationProxy.cs:88-94 | Acts only on the request-start event, compared ignoring case, and only with an `HttpContext` payload. Otherwise nothing changes. |
| AspNetCore.BridgedIdIsTraceId | src/Albelli.OpenTelemetry.AspNetCore/AlbelliAspNetCoreCorrelationProxy.cs:61 | Whatever the headers, a bridged parent id is a valid W3C trace id. |
| AspNetCore.CorrelationIdBridges | src/Albelli.OpenTelemetry.AspNetCore/AlbelliAspNetCoreCorrelationProxy.cs:96-111 | A first correlation value written as a GUID in D form resolves to that GUID, unless it is the nil GUID, which resolves to nothing. |
| AspNetCore.NoCorrelationNoBridge | src/Albelli.OpenTelemetry.AspNetCore/AlbelliAspNetCoreCorrelationProxy.cs:59 | A missing, empty, unparsable or all-zero correlation id never bridges. |
| AspNetCore.CorrelationProxy.OnNextListener | src/Albelli.OpenTelemetry.AspNetCore/AlbelliAspNetCoreCorrelationProxy.cs:30-37 | Only a listener named `Microsoft.AspNetCore` (ignoring case) adds a subscription, and adds exactly one, at the end. |
| AspNetCore.CorrelationProxy.OnCompletedListeners | src/Albelli.OpenTelemetry.AspNetCore/AlbelliAspNetCoreCorrelationProxy.cs:41-45 | Every subscription held is disposed, then the list is empty. |
| LambdaSqs.ExtractStringAttribute | src/Albelli.OpenTelemetry.Lambda.SQSEvents/SqsMessageExtensions.cs:7-14 | The result is non-null exactly when the message, its map, the key's entry and that entry's `StringValue` are all non-null. In that case it is that `StringValue`. |
| LambdaSqs.ExtractTraceContext | src/Albelli.OpenTelemetry.Lambda.SQSEvents/SqsActivityProvider.cs:46-55 | A null map or missing key gives no values. A present attribute gives exactly one, its `StringValue`. A null attribute throws. |
| LambdaSqs.GetterAgreesWithExtension | src/Albelli.OpenTelemetry.Lambda.SQSEvents/SqsActivityProvider.cs:46-55 | The getter and `ExtractStringAttribute` agree. Where the extension finds a value, the getter yields exactly that value. Where the getter yields nothing or throws, the extension returns null. |
| LambdaSqs.SqsActivityProvider.Start | src/Albelli.OpenTelemetry.Lambda.SQSEvents/SqsActivityProvider.cs:26-44 | `Baggage.Current` becomes the extracted baggage. The extraction is seeded with `SafeGetContext(Activity.Current)` and the current baggage. The span is `"SQS receive"` (Consumer), parented to the extracted context, with exactly the four message tags. It is null iff unsampled. |
| LambdaSns.ExtractAttribute | src/Albelli.OpenTelemetry.Lambda.SNSEvents/SnsMessageExtensions.cs:7-14 | The result is non-null exactly when the message, its map, the key's entry and that entry's `Value` are all non-null. In that case it is that `Value`. |
| LambdaSns.ExtractTraceContext | src/Albelli.OpenTelemetry.Lambda.SNSEvents/SnsActivityProvider.cs:47-56 | A null map or missing key gives no values. A present attribute gives exactly one, its `Value`. A null attribute throws. |
| LambdaSns.GetterAgreesWithExtension | src/Albelli.OpenTelemetry.Lambda.SNSEvents/SnsActivityProvider.cs:47-56 | The getter and `ExtractAttribute` agree as for SQS. |
| LambdaSns.SnsActivityProvider.Start | src/Albelli.OpenTelemetry.Lambda.SNSEvents/SnsActivityProvider.cs:26-45 | A record without a message throws a null reference before anything changes. Otherwise the same as for SQS, with span `"SNS receive"` and exactly the five record and message tags. |
| LambdaSns.SnsRecordPipelineHandler.HookBefore | src/Albelli.OpenTelemetry.Lambda.SNSEvents/OpenTelemetrySnsRecordPipelineHandler.cs:17-30 | `traceparent`/`tracestate` are read null-safely and parsed. A parse failure escapes and leaves `_activity` unchanged. Otherwise `_activity` becomes the new Consumer span `"SnsRequest"`, parented to the parsed context, or null if unsampled. A sampled record without a message throws after the first three tags. Otherwise it has all five tags. |
| LambdaSns.SnsRecordPipelineHandler.HookAfter | src/Albelli.OpenTelemetry.Lambda.SNSEvents/OpenTelemetrySnsRecordPipelineHandler.cs:32-35 | The span in `_activity`, if any, is stopped, with its tags and parent unchanged. The field is not reset. |
| LambdaSns.PostMarshallRequestFeature | src/Albelli.OpenTelemetry.Lambda.SNSEvents/OpenTelemetryAspNetRequestPipelineHandler.cs:12-16 | The request headers become the copy of `traceparent`, then of `tracestate`, from the record's message. |
| LambdaSns.CopiedHeaders | src/Albelli.OpenTelemetry.Lambda.SNSEvents/OpenTelemetryAspNetRequestPipelineHandler.cs:18-27 | Each tracing header holds the message attribute (as a one-value list) when that is not blank, overwriting. Otherwise it is left exactly as it was. Every other header is untouched. |
| Logging.GetInstance | src/Albelli.OpenTelemetry.Logging/UseExtensions.cs:113-126 | The implementation instance comes first, then the implementation type, then the factory. A descriptor with none of them throws a null reference. |
| Logging.GetInstancePrecedence | src/Albelli.OpenTelemetry.Logging/UseExtensions.cs:113-126 | The precedence is strict. With an instance set, the type and factory do not matter. With a type set, the factory does not matter. |
| Logging.CreateDecorator | src/Albelli.OpenTelemetry.Logging/UseExtensions.cs:93-100 | The decorator is created with the decorated instance as its first argument, followed by the additional parameters in order. |
| Logging.Decorated | src/Albelli.OpenTelemetry.Logging/UseExtensions.cs:108-111 | The decorated descriptor keeps the service type and lifetime, and is a factory registration. |
| Logging.SelfRegistration | src/Albelli.OpenTelemetry.Logging/UseExtensions.cs:81-85 | The original implementation type is registered as itself, with the original lifetime. |
| Logging.DecoratedLength | src/Albelli.OpenTelemetry.Logging/UseExtensions.cs:73-86 | The list grows by exactly the number of matching descriptors that have an implementation type. |
| Logging.DecorateAllAt | src/Albelli.OpenTelemetry.Logging/UseExtensions.cs:73-86 | Each original descriptor turns into its expansion in place. A descriptor of another service stays as it is. A matching one becomes its decorated form, preceded by its self-registration if it had an implementation type. |
| Logging.OthersKeepOrder | src/Albelli.OpenTelemetry.Logging/UseExtensions.cs:73-86 | Descriptors of other services survive unchanged and keep their relative order. |
| Logging.DecoratedWrapsOriginal | src/Albelli.OpenTelemetry.Logging/UseExtensions.cs:91-101 | A decorated registration yields the decorator built around exactly what the original yielded, or fails as the original does. A type-registered original is still reachable through its self-registration. |
| Logging.DecorateDescriptors | src/Albelli.OpenTelemetry.Logging/UseExtensions.cs:65-89 | If no descriptor has the service type, it throws `InvalidOperationException("Can't find the type to decorate")` and the list is unchanged. Otherwise the list becomes every descriptor expanded in place. |
| Logging.AddActivityBagTagLoggerFactory | src/Albelli.OpenTelemetry.Logging/UseExtensions.cs:41-48 | A null collection throws `ArgumentNullException("services")`. Two null predicates throw `ArgumentException`, changing nothing. Otherwise every `ILoggerFactory` registration is decorated with `ActivityBagTagLoggerFactory(inner, shouldLogBag, shouldLogTag)`. |
| Logging.DefaultShouldLogBagIff | src/Albelli.OpenTelemetry.Logging/UseExtensions.cs:23 | The default baggage predicate accepts exactly the keys beginning with `X-` or `x-`. |
| Logging.AddDefaultActivityBagTagLoggerFactory | src/Albelli.OpenTelemetry.Logging/UseExtensions.cs:21-24 | The same, with the default baggage predicate and the accept-all tag predicate. |

## Left out

- `InvokeSync` and `InvokeAsync`: one method models both. Task scheduling
  and `ConfigureAwait` are not modelled. Only the order "inject, call inner,
  dispose on every path" is kept.
- `Activity`, `ActivitySource` and sampling are a small stand-in. Not
  modelled:
  - id generation;
  - the W3C grammar of ids;
  - the effect of `SetParentId` on the span's ids (only the accepted pair is
    recorded);
  - export and listeners;
  - tag order and duplicate `AddTag` entries (tags are a map).
- `Activity.Current` and `Baggage.Current` are parameters. Setting the
  current span while a Producer span is open, and restoring it afterwards,
  is not modelled.
- The propagator's own `Inject`/`Extract`, and `ActivityContext.Parse`, are
  functions given as parameters. This is the traceparent/tracestate grammar
  of the W3C Trace Context recommendation.
- Header dictionaries of the AWS SDK and ASP.NET Core compare keys ignoring
  case. The model uses exact keys.
- `EqualsIgnoreCase` and `StartsWithIgnoreCase` fold ASCII letters only.
  Ordinal ignore-case comparison of other scripts is not modelled.
- `Guids.TryParse` accepts the N, D, B and P forms. Not modelled:
  - the X form (hexadecimal braces);
  - D-form components written with a leading `+` or a `0x`/`0X` prefix,
    which .NET accepts within the component's width (for example
    `+234abcd-0000-0000-0000-000000000001`); the model does not parse them,
    so such a correlation id is not bridged;
  - the exact set of characters `string.Trim` removes beyond those `Common.IsWhiteSpace` lists.
- `Guid` keeps the 32 digits in textual order, not the runtime's byte layout.
  This agrees with both printed forms.
- Null keys, null messages passed to the Lambda providers, null request
  objects handed to the SQS `TryAdd` overloads, and a null batch `Entries`
  list would throw null references in .NET. They are outside the model's
  types. Nullable collections and attributes inside them are modelled.
- A batch entry's attribute dictionary is a value. Two entries sharing one
  dictionary object (aliasing) is not modelled. An entry object listed twice
  is modelled.
- `ConfigureAwsOutgoingRequests`, which registers the customizers in the
  SDK's global registry, is not modelled. The customizer's `UniqueName` is a
  constant.
- The proxy constructor's global `Activity.DefaultIdFormat` and
  `ForceDefaultIdFormat` settings are not modelled.
- `SubscribeWithAdapter` subscription mechanics are not modelled. A
  subscription is an object with a disposed flag.
- `OnError` and the event-level `OnCompleted` of the proxy are empty in the
  source and have no model.
- `SnsProxyFunctionExtensions` and `TracerProviderBuilderSnsExtensions` only
  register handlers and sources on external builders.
- `ActivatorUtilities` and `ServiceDescriptor.Describe` are DI container
  internals. Creating and resolving an instance is a symbolic value, and a
  user factory is the outcome it gives.
- The parameterless `Decorate<TService, TDecorator>` overload is the case of
  an empty additional-parameter list. `AddActivityBagTagLoggerFactory` does
  not use it.
- `HookBefore` running twice without `HookAfter` replaces `_activity`
  without disposing the earlier span. The model shows this, but states
  nothing about the lost span.
- LambdaSqs.ExtractTraceContext and LambdaSns.ExtractTraceContext throw a
  null reference for a null attribute. How the propagator reacts to a
  throwing getter is outside the model.
