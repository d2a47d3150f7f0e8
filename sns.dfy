/** Albelli.OpenTelemetry.SNS, the carrier helpers of `OpenTelemetrySns`.
    Unlike SQS, SNS overwrites: a header or message attribute already
    present is replaced by the new value. */
module SnsCarriers {
  import opened Common
  import opened Diagnostics
  import opened Core
  import opened AwsSdk
  import SqsCarriers

  /** `TrySetAttribute` on the request's (possibly null) attribute map: a
      blank value changes nothing and creates no map; otherwise the
      attribute is set, replacing any earlier one. The key is not checked. */
  function SetAttribute(m: Option<AttributeMap>, key: string, value: Option<string>): (r: Option<AttributeMap>)
    ensures IsBlank(value) ==> r == m
    ensures !IsBlank(value) ==> r.Some? && r.value.Keys == m.GetOr(map[]).Keys + {key}
    ensures !IsBlank(value) ==> r.value[key] == StringAttribute(value.value)
    ensures !IsBlank(value) ==> forall k | k in m.GetOr(map[]) && k != key :: r.value[k] == m.value[k]
  {
    if IsBlank(value) then m else Some(m.GetOr(map[])[key := StringAttribute(value.value)])
  }

  /** `TrySetAttribute(PublishRequest, key, value)`: a null request is ignored. */
  method TrySetAttribute(request: PublishRequest?, key: string, value: Option<string>)
    modifies request
    ensures request != null ==> request.messageAttributes == SetAttribute(old(request.messageAttributes), key, value)
  {
    if request == null || IsBlank(value) {
      return;
    }
    if request.messageAttributes.None? {
      request.messageAttributes := Some(map[]);
    }
    request.messageAttributes := Some(request.messageAttributes.value[key := StringAttribute(value.value)]);
  }

  /** `TrySetHeader(IRequest, key, value)`: the same rule on wire headers. */
  method TrySetHeader(request: HttpRequest?, key: string, value: Option<string>)
    modifies request
    ensures request != null && !IsBlank(value) ==> request.headers == old(request.headers)[key := value.value]
    ensures request != null && IsBlank(value) ==> request.headers == old(request.headers)
  {
    if request == null || IsBlank(value) {
      return;
    }
    request.headers := request.headers[key := value.value];
  }

  /** Setting the same attribute twice equals setting it once. */
  lemma SetAttributeIdempotent(m: Option<AttributeMap>, key: string, value: Option<string>)
    ensures SetAttribute(SetAttribute(m, key, value), key, value) == SetAttribute(m, key, value)
  {
    if !IsBlank(value) {
      var once := SetAttribute(m, key, value).value;
      assert once[key := StringAttribute(value.value)] == once;
    }
  }

  /** Where an attribute is already present, SNS replaces it with the new
      value while the SQS `TryAdd` keeps the old one. */
  lemma SnsReplacesWhereSqsKeeps(m: AttributeMap, key: string, value: Option<string>)
    requires key in m && !IsBlank(value)
    ensures SetAttribute(Some(m), key, value).value[key] == StringAttribute(value.value)
    ensures SqsCarriers.TryAddAttribute(m, key, value)[key] == m[key]
  {
  }
}

/** `OpenTelemetrySnsMessageAttributePipelineHandler`: runs before the
    `Marshaller`; for a `PublishRequest` it starts a Producer span and
    injects its context into the message attributes, overwriting. */
module SnsAttributeHandler {
  import opened Common
  import opened Diagnostics
  import opened Core
  import opened AwsSdk

  function Targets(rc: RequestContext?): set<object> {
    if rc != null && rc.originalRequest.Publish? then {rc.originalRequest.publish} else {}
  }

  /** `InjectTraceContext`: skips a blank key or value, else sets the
      attribute, replacing any earlier one. */
  function InjectTraceContext(m: AttributeMap, key: string, value: Option<string>): AttributeMap {
    if IsBlank(Some(key)) || IsBlank(value) then m else m[key := StringAttribute(value.value)]
  }

  /** `Inject(context, MessageAttributes, InjectTraceContext)`. */
  method InjectAttributes(m: AttributeMap, fields: seq<Field>) returns (r: AttributeMap)
    ensures r == Overwrite(m, Accepted(fields, true), StringAttribute)
  {
    r := m;
    for i := 0 to |fields|
      invariant r == Overwrite(m, Accepted(fields[..i], true), StringAttribute)
    {
      OverwriteAcceptedStep(m, fields, i, true, StringAttribute);
      r := InjectTraceContext(r, fields[i].key, fields[i].value);
    }
    assert fields[..|fields|] == fields;
  }

  class MessageAttributePipelineHandler {
    const propagator: TextMapPropagator

    constructor (propagator: TextMapPropagator)
      ensures this.propagator == propagator
    {
      this.propagator := propagator;
    }

    function Writes(span: Activity?, current: Activity?, baggage: Baggage): seq<Write> {
      Accepted(propagator.inject(PropagationContext(SafeGetContext(span, current), baggage)), true)
    }

    /** `ApplyOpenTelemetry`: only a `PublishRequest` is instrumented. */
    method ApplyOpenTelemetry(rc: RequestContext?, current: Activity?, baggage: Baggage, sampling: Sampling)
      returns (span: Activity?)
      modifies Targets(rc)
      ensures rc == null || !rc.originalRequest.Publish? ==> span == null
      ensures rc != null && rc.originalRequest.Publish? ==> (span == null <==> sampling.NotSampled?)
      ensures span != null ==>
                && fresh(span) && !span.stopped && span.kind == Producer
                && span.operationName == rc.requestName + " send"
                && span.parentContext == ExpectedParent(None, current)
                && span.tags == MessagingTags("AmazonSNS")
      ensures rc != null && rc.originalRequest.Publish? ==>
                var x := rc.originalRequest.publish;
                x.messageAttributes
                  == Some(Overwrite(old(x.messageAttributes).GetOr(map[]), Writes(span, current, baggage), StringAttribute))
    {
      if rc == null || !rc.originalRequest.Publish? {
        return null;
      }
      var request := rc.originalRequest.publish;
      span := StartActivity(rc.requestName + " send", Producer, None, current, sampling);
      var fields := propagator.inject(PropagationContext(SafeGetContext(span, current), baggage));
      if request.messageAttributes.None? {
        request.messageAttributes := Some(map[]);
      }
      var attributes := InjectAttributes(request.messageAttributes.value, fields);
      request.messageAttributes := Some(attributes);
      AddMessagingTags(span, "AmazonSNS");
    }

    /** `InvokeSync` / `InvokeAsync`: the span is open while the inner
        handler runs and disposed however that call ends. */
    method Invoke(rc: RequestContext?, current: Activity?, baggage: Baggage, sampling: Sampling, inner: InnerHandler)
      returns (o: Outcome<()>, span: Activity?)
      modifies Targets(rc), inner`calls
      ensures o == inner.result
      ensures span == null <==> rc == null || !rc.originalRequest.Publish? || sampling.NotSampled?
      ensures span != null ==>
                && fresh(span) && span.stopped && span.kind == Producer
                && span.operationName == rc.requestName + " send"
                && span.parentContext == ExpectedParent(None, current)
                && span.tags == MessagingTags("AmazonSNS")
      ensures rc != null && rc.originalRequest.Publish? ==>
                var x := rc.originalRequest.publish;
                x.messageAttributes
                  == Some(Overwrite(old(x.messageAttributes).GetOr(map[]), Writes(span, current, baggage), StringAttribute))
      ensures |inner.calls| == |old(inner.calls)| + 1
      ensures span != null ==> inner.calls[|old(inner.calls)|].currentSpanOpen
    {
      span := ApplyOpenTelemetry(rc, current, baggage, sampling);
      o := inner.Invoke(rc, if span != null then span else current);
      if span != null {
        span.Dispose();
      }
    }
  }
}

/** `OpenTelemetrySnsHttpRequestPipelineHandler`: runs after the
    `Marshaller`; for a `PublishRequest` it injects the current span's
    context into the wire headers, overwriting. */
module SnsHeaderHandler {
  import opened Common
  import opened Diagnostics
  import opened Core
  import opened AwsSdk

  function Targets(rc: RequestContext?): set<object> {
    if rc != null && rc.originalRequest.Publish? && rc.request != null then {rc.request} else {}
  }

  /** `InjectTraceContext`: only the value is checked. */
  function InjectTraceContext(headers: map<string, string>, key: string, value: Option<string>): map<string, string> {
    if IsBlank(value) then headers else headers[key := value.value]
  }

  /** `Inject(context, request.Headers, InjectTraceContext)`. */
  method InjectHeaders(headers: map<string, string>, fields: seq<Field>) returns (r: map<string, string>)
    ensures r == Overwrite(headers, Accepted(fields, false), Verbatim)
  {
    r := headers;
    for i := 0 to |fields|
      invariant r == Overwrite(headers, Accepted(fields[..i], false), Verbatim)
    {
      OverwriteAcceptedStep(headers, fields, i, false, Verbatim);
      r := InjectTraceContext(r, fields[i].key, fields[i].value);
    }
    assert fields[..|fields|] == fields;
  }

  class HttpRequestPipelineHandler {
    const propagator: TextMapPropagator

    constructor (propagator: TextMapPropagator)
      ensures this.propagator == propagator
    {
      this.propagator := propagator;
    }

    /** The header writes for the current span's context (or the default). */
    function Writes(current: Activity?, baggage: Baggage): seq<Write> {
      Accepted(propagator.inject(PropagationContext(SafeGetContext(current, current), baggage)), false)
    }

    /** `ApplyOpenTelemetry`: a `PublishRequest` whose marshalled request is
        still missing makes `request.Headers` throw. */
    method ApplyOpenTelemetry(rc: RequestContext?, current: Activity?, baggage: Baggage) returns (o: Outcome<()>)
      modifies Targets(rc)
      ensures o.Threw? <==> rc != null && rc.originalRequest.Publish? && rc.request == null
      ensures o.Threw? ==> o.error == NullReference
      ensures rc != null && rc.originalRequest.Publish? && rc.request != null ==>
                rc.request.headers == Overwrite(old(rc.request.headers), Writes(current, baggage), Verbatim)
    {
      if rc == null || !rc.originalRequest.Publish? {
        return Returned(());
      }
      var request := rc.request;
      if request == null {
        return Threw(NullReference);
      }
      var fields := propagator.inject(PropagationContext(SafeGetContext(current, current), baggage));
      var headers := InjectHeaders(request.headers, fields);
      request.headers := headers;
      o := Returned(());
    }

    /** `InvokeSync` / `InvokeAsync`: headers first, then the inner handler;
        if the injection throws, the inner handler is never reached. */
    method Invoke(rc: RequestContext?, current: Activity?, baggage: Baggage, inner: InnerHandler) returns (o: Outcome<()>)
      modifies Targets(rc), inner`calls
      ensures rc != null && rc.originalRequest.Publish? && rc.request == null ==>
                o == Threw(NullReference) && inner.calls == old(inner.calls)
      ensures !(rc != null && rc.originalRequest.Publish? && rc.request == null) ==>
                o == inner.result && inner.calls == old(inner.calls) + [Observe(rc, current)]
      ensures rc != null && rc.originalRequest.Publish? && rc.request != null ==>
                rc.request.headers == Overwrite(old(rc.request.headers), Writes(current, baggage), Verbatim)
    {
      o := ApplyOpenTelemetry(rc, current, baggage);
      if o.Threw? {
        return;
      }
      o := inner.Invoke(rc, current);
    }
  }
}
