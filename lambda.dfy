/** Albelli.OpenTelemetry.Lambda.SQSEvents: reading the trace context back
    out of an SQS message a Lambda function receives, and starting the
    Consumer span for it. */
module LambdaSqs {
  import opened Common
  import opened Diagnostics
  import opened Core

  /** `SQSEvent.MessageAttribute` (the binary parts are not modelled). */
  datatype MessageAttribute = MessageAttribute(stringValue: Option<string>, dataType: Option<string>)

  /** A message's attributes; an entry may be null. */
  type AttributeDictionary = map<string, Option<MessageAttribute>>

  /** `SQSEvent.SQSMessage`, the fields the provider reads. */
  datatype SqsMessage = SqsMessage(
    messageId: Option<string>,
    eventSource: Option<string>,
    eventSourceArn: Option<string>,
    awsRegion: Option<string>,
    messageAttributes: Option<AttributeDictionary>)

  /** `ExtractStringAttribute(message, key)`: null-safe all the way down. */
  function ExtractStringAttribute(message: Option<SqsMessage>, key: string): (r: Option<string>)
    ensures r.Some? ==> && message.Some? && message.value.messageAttributes.Some?
                        && key in message.value.messageAttributes.value
                        && message.value.messageAttributes.value[key].Some?
                        && message.value.messageAttributes.value[key].value.stringValue == r
    ensures r.None? ==> || message.None? || message.value.messageAttributes.None?
                        || key !in message.value.messageAttributes.value
                        || message.value.messageAttributes.value[key].None?
                        || message.value.messageAttributes.value[key].value.stringValue.None?
  {
    if message.Some? && message.value.messageAttributes.Some? && key in message.value.messageAttributes.value
       && message.value.messageAttributes.value[key].Some?
    then message.value.messageAttributes.value[key].value.stringValue
    else None
  }

  /** `ExtractTraceContext`, the getter given to the propagator: no values
      for a missing map or key, else the attribute's string value; a null
      attribute makes it throw. */
  function ExtractTraceContext(attributes: Option<AttributeDictionary>, key: string): (l: Lookup)
    ensures attributes.None? || key !in attributes.value ==> l == Values([])
    ensures l.LookupThrew? <==> attributes.Some? && key in attributes.value && attributes.value[key].None?
    ensures l.Values? && attributes.Some? && key in attributes.value ==>
              l.values == [attributes.value[key].value.stringValue]
  {
    if attributes.None? || key !in attributes.value then Values([])
    else if attributes.value[key].None? then LookupThrew(NullReference)
    else Values([attributes.value[key].value.stringValue])
  }

  /** The getter and `ExtractStringAttribute` agree: the getter yields the
      one value the extension reads, or nothing where it reads null for a
      missing key; only a null attribute sets them apart (the getter throws). */
  lemma GetterAgreesWithExtension(message: SqsMessage, key: string)
    ensures ExtractTraceContext(message.messageAttributes, key) == Values([]) ==>
              ExtractStringAttribute(Some(message), key).None?
    ensures ExtractTraceContext(message.messageAttributes, key).LookupThrew? ==>
              ExtractStringAttribute(Some(message), key).None?
    ensures ExtractStringAttribute(Some(message), key).Some? ==>
              ExtractTraceContext(message.messageAttributes, key) == Values([ExtractStringAttribute(Some(message), key)])
  {
  }

  /** The Consumer span's tags, in the order `Start` adds them. */
  function ReceiveTags(message: SqsMessage): map<string, Option<string>> {
    map["messaging.sqs.event.source" := message.eventSource,
        "messaging.sqs.event.source.arn" := message.eventSourceArn,
        "messaging.sqs.message.id" := message.messageId,
        "messaging.sqs.aws.region" := message.awsRegion]
  }

  /** `SqsActivityProvider`. */
  class SqsActivityProvider {
    const propagator: TextMapPropagator

    constructor (propagator: TextMapPropagator)
      ensures this.propagator == propagator
    {
      this.propagator := propagator;
    }

    /** What the propagator extracts from the message, falling back on the
        current span's context and the current baggage. */
    function Extracted(message: SqsMessage, current: Activity?, baggage: Baggage): PropagationContext {
      propagator.extract(PropagationContext(SafeGetContext(current, current), baggage),
                         k => ExtractTraceContext(message.messageAttributes, k))
    }

    /** `Start(message)`: returns the span (null if unsampled) and the new
        `Baggage.Current`, which is the extracted baggage. */
    method Start(message: SqsMessage, current: Activity?, baggage: Baggage, sampling: Sampling)
      returns (activity: Activity?, newBaggage: Baggage)
      ensures newBaggage == Extracted(message, current, baggage).baggage
      ensures activity == null <==> sampling.NotSampled?
      ensures activity != null ==>
                && fresh(activity) && !activity.stopped
                && activity.operationName == "SQS receive" && activity.kind == Consumer
                && activity.parentContext == ExpectedParent(Some(Extracted(message, current, baggage).activityContext), current)
                && activity.tags == ReceiveTags(message)
    {
      var parentContext := propagator.extract(PropagationContext(SafeGetContext(current, current), baggage),
                                              k => ExtractTraceContext(message.messageAttributes, k));
      newBaggage := parentContext.baggage;
      activity := StartActivity("SQS receive", Consumer, Some(parentContext.activityContext), current, sampling);
      if activity != null {
        activity.AddTag("messaging.sqs.event.source", message.eventSource);
        activity.AddTag("messaging.sqs.event.source.arn", message.eventSourceArn);
        activity.AddTag("messaging.sqs.message.id", message.messageId);
        activity.AddTag("messaging.sqs.aws.region", message.awsRegion);
      }
    }
  }
}

/** Albelli.OpenTelemetry.Lambda.SNSEvents: the same for SNS records, plus
    the record pipeline handler of the SNS Lambda template (a span around
    each record) and the ASP.NET request handler that copies the trace
    attributes of the record into the request headers. */
module LambdaSns {
  import opened Common
  import opened Diagnostics
  import opened Core

  /** `SNSEvent.MessageAttribute`. */
  datatype MessageAttribute = MessageAttribute(attributeType: Option<string>, value: Option<string>)

  type AttributeDictionary = map<string, Option<MessageAttribute>>

  /** `SNSEvent.SNSMessage`, the fields read here. */
  datatype SnsMessage = SnsMessage(
    messageId: Option<string>,
    topicArn: Option<string>,
    messageAttributes: Option<AttributeDictionary>)

  /** `SNSEvent.SNSRecord`; its message may be null. */
  datatype SnsRecord = SnsRecord(
    eventSource: Option<string>,
    eventVersion: Option<string>,
    eventSubscriptionArn: Option<string>,
    sns: Option<SnsMessage>)

  /** `ExtractAttribute(snsMessage, key)`: null-safe all the way down. */
  function ExtractAttribute(message: Option<SnsMessage>, key: string): (r: Option<string>)
    ensures r.Some? ==> && message.Some? && message.value.messageAttributes.Some?
                        && key in message.value.messageAttributes.value
                        && message.value.messageAttributes.value[key].Some?
                        && message.value.messageAttributes.value[key].value.value == r
    ensures r.None? ==> || message.None? || message.value.messageAttributes.None?
                        || key !in message.value.messageAttributes.value
                        || message.value.messageAttributes.value[key].None?
                        || message.value.messageAttributes.value[key].value.value.None?
  {
    if message.Some? && message.value.messageAttributes.Some? && key in message.value.messageAttributes.value
       && message.value.messageAttributes.value[key].Some?
    then message.value.messageAttributes.value[key].value.value
    else None
  }

  /** `ExtractTraceContext`, the getter of `SnsActivityProvider`. */
  function ExtractTraceContext(attributes: Option<AttributeDictionary>, key: string): (l: Lookup)
    ensures attributes.None? || key !in attributes.value ==> l == Values([])
    ensures l.LookupThrew? <==> attributes.Some? && key in attributes.value && attributes.value[key].None?
    ensures l.Values? && attributes.Some? && key in attributes.value ==>
              l.values == [attributes.value[key].value.value]
  {
    if attributes.None? || key !in attributes.value then Values([])
    else if attributes.value[key].None? then LookupThrew(NullReference)
    else Values([attributes.value[key].value.value])
  }

  /** The getter and `ExtractAttribute` agree except on a null attribute. */
  lemma GetterAgreesWithExtension(message: SnsMessage, key: string)
    ensures ExtractTraceContext(message.messageAttributes, key) == Values([]) ==>
              ExtractAttribute(Some(message), key).None?
    ensures ExtractTraceContext(message.messageAttributes, key).LookupThrew? ==>
              ExtractAttribute(Some(message), key).None?
    ensures ExtractAttribute(Some(message), key).Some? ==>
              ExtractTraceContext(message.messageAttributes, key) == Values([ExtractAttribute(Some(message), key)])
  {
  }

  /** The tags of `SnsActivityProvider.Start`. */
  function ReceiveTags(record: SnsRecord, message: SnsMessage): map<string, Option<string>> {
    map["messaging.sns.event.source" := record.eventSource,
        "messaging.sns.event.version" := record.eventVersion,
        "messaging.sns.event.subscription.arn" := record.eventSubscriptionArn,
        "messaging.sns.message.id" := message.messageId,
        "messaging.sns.topic.arn" := message.topicArn]
  }

  /** `SnsActivityProvider`. */
  class SnsActivityProvider {
    const propagator: TextMapPropagator

    constructor (propagator: TextMapPropagator)
      ensures this.propagator == propagator
    {
      this.propagator := propagator;
    }

    function Extracted(message: SnsMessage, current: Activity?, baggage: Baggage): PropagationContext {
      propagator.extract(PropagationContext(SafeGetContext(current, current), baggage),
                         k => ExtractTraceContext(message.messageAttributes, k))
    }

    /** `Start(record)`: a record without a message throws before anything
        happens; otherwise as for SQS, with the record's five tags. */
    method Start(record: SnsRecord, current: Activity?, baggage: Baggage, sampling: Sampling)
      returns (o: Outcome<()>, activity: Activity?, newBaggage: Baggage)
      ensures record.sns.None? ==> o == Threw(NullReference) && activity == null && newBaggage == baggage
      ensures record.sns.Some? ==>
                && o == Returned(())
                && newBaggage == Extracted(record.sns.value, current, baggage).baggage
                && (activity == null <==> sampling.NotSampled?)
      ensures activity != null ==>
                && fresh(activity) && !activity.stopped
                && activity.operationName == "SNS receive" && activity.kind == Consumer
                && activity.parentContext
                     == ExpectedParent(Some(Extracted(record.sns.value, current, baggage).activityContext), current)
                && activity.tags == ReceiveTags(record, record.sns.value)
    {
      if record.sns.None? {
        return Threw(NullReference), null, baggage;
      }
      var message := record.sns.value;
      var parentContext := propagator.extract(PropagationContext(SafeGetContext(current, current), baggage),
                                              k => ExtractTraceContext(message.messageAttributes, k));
      newBaggage := parentContext.baggage;
      activity := StartActivity("SNS receive", Consumer, Some(parentContext.activityContext), current, sampling);
      if activity != null {
        activity.AddTag("messaging.sns.event.source", record.eventSource);
        activity.AddTag("messaging.sns.event.version", record.eventVersion);
        activity.AddTag("messaging.sns.event.subscription.arn", record.eventSubscriptionArn);
        activity.AddTag("messaging.sns.message.id", message.messageId);
        activity.AddTag("messaging.sns.topic.arn", message.topicArn);
      }
      o := Returned(());
    }
  }

  /** The tags `HookBefore` adds before it reads the message. */
  function RecordTags(record: SnsRecord): map<string, Option<string>> {
    map["sns.event.source" := record.eventSource,
        "sns.event.version" := record.eventVersion,
        "sns.event.subscription.arn" := record.eventSubscriptionArn]
  }

  /** All five tags of `HookBefore`. */
  function RecordMessageTags(record: SnsRecord, message: SnsMessage): map<string, Option<string>> {
    RecordTags(record)["sns.message.id" := message.messageId]["sns.topic.arn" := message.topicArn]
  }

  /** `OpenTelemetrySnsRecordPipelineHandler`: one span per record, kept in
      a field between the two hooks. */
  class SnsRecordPipelineHandler {
    var activity: Activity?

    constructor ()
      ensures activity == null
    {
      activity := null;
    }

    /** `HookBefore`: parse the record's `traceparent` / `tracestate`
        attributes into the parent context (`ActivityContext.Parse`, here the
        parameter `parse`, which may throw) and start the "SnsRequest"
        Consumer span. A parse failure escapes and leaves the field alone; a
        record without a message fails after the first three tags. The
        previous span, if any, is replaced without being disposed. */
    method HookBefore(record: SnsRecord, current: Activity?,
                      parse: (Option<string>, Option<string>) -> Outcome<ActivityContext>, sampling: Sampling)
      returns (o: Outcome<()>)
      modifies this`activity
      ensures var parsed := parse(ExtractAttribute(record.sns, TraceParent), ExtractAttribute(record.sns, TraceState));
              && (parsed.Threw? ==> o == Threw(parsed.error) && activity == old(activity))
              && (parsed.Returned? ==>
                    && (activity == null <==> sampling.NotSampled?)
                    && (activity == null ==> o == Returned(()))
                    && (activity != null ==>
                          && fresh(activity) && !activity.stopped
                          && activity.operationName == "SnsRequest" && activity.kind == Consumer
                          && activity.parentContext == ExpectedParent(Some(parsed.value), current)
                          && (record.sns.None? ==> o == Threw(NullReference) && activity.tags == RecordTags(record))
                          && (record.sns.Some? ==>
                                o == Returned(()) && activity.tags == RecordMessageTags(record, record.sns.value))))
    {
      var traceParent := ExtractAttribute(record.sns, TraceParent);
      var traceState := ExtractAttribute(record.sns, TraceState);
      var parsed := parse(traceParent, traceState);
      if parsed.Threw? {
        return Threw(parsed.error);
      }
      var started := StartActivity("SnsRequest", Consumer, Some(parsed.value), current, sampling);
      activity := started;
      o := Returned(());
      if started != null {
        started.AddTag("sns.event.source", record.eventSource);
        started.AddTag("sns.event.version", record.eventVersion);
        started.AddTag("sns.event.subscription.arn", record.eventSubscriptionArn);
        if record.sns.None? {
          return Threw(NullReference);
        }
        started.AddTag("sns.message.id", record.sns.value.messageId);
        started.AddTag("sns.topic.arn", record.sns.value.topicArn);
      }
    }

    /** `HookAfter`: dispose the span, if any; the field keeps pointing at it. */
    method HookAfter()
      modifies activity
      ensures activity == old(activity)
      ensures activity != null ==> activity.stopped && unchanged(activity`tags, activity`parentIdOverride)
    {
      if activity != null {
        activity.Dispose();
      }
    }
  }

  /** `IHttpRequestFeature`: the headers of the request the SNS record is
      turned into. */
  class HttpRequestFeature {
    var headers: HeaderDictionary

    constructor (headers: HeaderDictionary)
      ensures this.headers == headers
    {
      this.headers := headers;
    }
  }

  /** `CopyFromMessageToHeaders`: a non-blank attribute replaces the header. */
  function CopyFromMessageToHeaders(headers: HeaderDictionary, message: Option<SnsMessage>, key: string): HeaderDictionary {
    var value := ExtractAttribute(message, key);
    if IsBlank(value) then headers else headers[key := [value]]
  }

  /** `OpenTelemetryAspNetRequestPipelineHandler.PostMarshallRequestFeature`:
      copies `traceparent` and `tracestate`, and nothing else. */
  method PostMarshallRequestFeature(feature: HttpRequestFeature, record: SnsRecord)
    modifies feature
    ensures feature.headers == CopyFromMessageToHeaders(CopyFromMessageToHeaders(old(feature.headers), record.sns, TraceParent),
                                                        record.sns, TraceState)
  {
    feature.headers := CopyFromMessageToHeaders(feature.headers, record.sns, TraceParent);
    feature.headers := CopyFromMessageToHeaders(feature.headers, record.sns, TraceState);
  }

  /** After the copy each tracing header holds the record's attribute if it
      is not blank, and is as before otherwise; every other header is
      untouched. */
  lemma CopiedHeaders(headers: HeaderDictionary, message: Option<SnsMessage>)
    ensures var r := CopyFromMessageToHeaders(CopyFromMessageToHeaders(headers, message, TraceParent), message, TraceState);
            && (forall k | k != TraceParent && k != TraceState ::
                  (k in r <==> k in headers) && (k in headers ==> r[k] == headers[k]))
            && (!IsBlank(ExtractAttribute(message, TraceParent)) ==>
                  TraceParent in r && r[TraceParent] == [ExtractAttribute(message, TraceParent)])
            && (IsBlank(ExtractAttribute(message, TraceParent)) ==>
                  (TraceParent in r <==> TraceParent in headers)
                  && (TraceParent in headers ==> r[TraceParent] == headers[TraceParent]))
            && (!IsBlank(ExtractAttribute(message, TraceState)) ==>
                  TraceState in r && r[TraceState] == [ExtractAttribute(message, TraceState)])
            && (IsBlank(ExtractAttribute(message, TraceState)) ==>
                  (TraceState in r <==> TraceState in headers)
                  && (TraceState in headers ==> r[TraceState] == headers[TraceState]))
  {
  }
}
