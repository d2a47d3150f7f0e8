/** Albelli.OpenTelemetry.SQS, the two pipeline handlers.
    `OpenTelemetrySqsMessageAttributePipelineHandler` runs before the
    `Marshaller`: it starts a Producer span around the call and injects the
    span's context into the message attributes (or, for a receive, into the
    attribute-name allow-list). `OpenTelemetrySqsHttpRequestPipelineHandler`
    runs after the `Marshaller` and writes `traceparent` and `tracestate`
    headers from the current span. */
module SqsAttributeHandler {
  import opened Common
  import opened Diagnostics
  import opened Core
  import opened AwsSdk
  import opened SqsCarriers

  /** The objects the handler may change for a call: those of an SQS request. */
  function Targets(rc: RequestContext?): set<object> {
    if rc != null && IsAmazonSqsRequest(rc.originalRequest) then RequestObjects(rc.originalRequest) else {}
  }

  /** `Inject(context, messageAttributes, InjectToMessageAttributes)`: the
      setter run over every field the propagator emits. */
  method InjectAttributes(m: AttributeMap, fields: seq<Field>) returns (r: AttributeMap)
    ensures r == AddAbsent(m, Accepted(fields, true))
  {
    r := m;
    for i := 0 to |fields|
      invariant r == AddAbsent(m, Accepted(fields[..i], true))
    {
      InjectAttributesStep(m, fields, i);
      r := InjectToMessageAttributes(r, fields[i].key, fields[i].value);
    }
    assert fields[..|fields|] == fields;
  }

  /** `Inject(context, messageAttributeNames, InjectToMessageAttributeNames)`. */
  method InjectNames(names: seq<string>, fields: seq<Field>) returns (r: seq<string>)
    ensures r == AddNames(names, Accepted(fields, true))
  {
    r := names;
    for i := 0 to |fields|
      invariant r == AddNames(names, Accepted(fields[..i], true))
    {
      InjectNamesStep(names, fields, i);
      r := InjectToMessageAttributeNames(r, fields[i].key, fields[i].value);
    }
    assert fields[..|fields|] == fields;
  }

  /** The batch case: every entry gets a map if it has none and receives the
      same context. An entry listed twice is injected twice, which by
      `AddAbsentIdempotent` leaves it as one injection does. */
  method InjectBatch(batch: SendMessageBatchRequest, fields: seq<Field>)
    modifies set e | e in batch.entries
    ensures forall e | e in batch.entries ::
              e.messageAttributes == Some(AddAbsent(old(e.messageAttributes).GetOr(map[]), Accepted(fields, true)))
  {
    ghost var writes := Accepted(fields, true);
    for j := 0 to |batch.entries|
      invariant forall e | e in batch.entries ::
                  e.messageAttributes == if e in batch.entries[..j]
                                         then Some(AddAbsent(old(e.messageAttributes).GetOr(map[]), writes))
                                         else old(e.messageAttributes)
    {
      var entry := batch.entries[j];
      if entry in batch.entries[..j] {
        AddAbsentIdempotent(old(entry.messageAttributes).GetOr(map[]), writes);
      }
      if entry.messageAttributes.None? {
        entry.messageAttributes := Some(map[]);
      }
      var injected := InjectAttributes(entry.messageAttributes.value, fields);
      entry.messageAttributes := Some(injected);
      assert batch.entries[..j + 1] == batch.entries[..j] + [entry];
    }
    assert batch.entries[..|batch.entries|] == batch.entries;
  }

  class MessageAttributePipelineHandler {
    const propagator: TextMapPropagator

    constructor (propagator: TextMapPropagator)
      ensures this.propagator == propagator
    {
      this.propagator := propagator;
    }

    /** The writes the setters get for a call: the fields the propagator
        emits for `SafeGetContext(span)` and the current baggage. */
    function Writes(span: Activity?, current: Activity?, baggage: Baggage): seq<Write> {
      Accepted(propagator.inject(PropagationContext(SafeGetContext(span, current), baggage)), true)
    }

    /** `ApplyOpenTelemetry`: for an SQS request, a Producer span named
        `"<RequestName> send"` and the injection the request type calls for. */
    method ApplyOpenTelemetry(rc: RequestContext?, current: Activity?, baggage: Baggage, sampling: Sampling)
      returns (span: Activity?)
      modifies Targets(rc)
      ensures rc == null || !IsAmazonSqsRequest(rc.originalRequest) ==> span == null
      ensures rc != null && IsAmazonSqsRequest(rc.originalRequest) ==>
                (span == null <==> sampling.NotSampled?)
      ensures span != null ==>
                && fresh(span) && !span.stopped && span.kind == Producer
                && span.operationName == rc.requestName + " send"
                && span.parentContext == ExpectedParent(None, current)
                && span.tags == MessagingTags("AmazonSQS")
      ensures rc != null && rc.originalRequest.ReceiveMessage? ==>
                var x := rc.originalRequest.receive;
                x.messageAttributeNames == Some(AddNames(old(x.messageAttributeNames).GetOr([]), Writes(span, current, baggage)))
      ensures rc != null && rc.originalRequest.SendMessage? ==>
                var x := rc.originalRequest.send;
                x.messageAttributes == Some(AddAbsent(old(x.messageAttributes).GetOr(map[]), Writes(span, current, baggage)))
      ensures rc != null && rc.originalRequest.SendMessageBatch? ==>
                forall e | e in rc.originalRequest.batch.entries ::
                  e.messageAttributes == Some(AddAbsent(old(e.messageAttributes).GetOr(map[]), Writes(span, current, baggage)))
    {
      if rc == null || !IsAmazonSqsRequest(rc.originalRequest) {
        return null;
      }
      span := StartActivity(rc.requestName + " send", Producer, None, current, sampling);
      var fields := propagator.inject(PropagationContext(SafeGetContext(span, current), baggage));
      match rc.originalRequest {
      case ReceiveMessage(x) =>
        if x.messageAttributeNames.None? {
          x.messageAttributeNames := Some([]);
        }
        var names := InjectNames(x.messageAttributeNames.value, fields);
        x.messageAttributeNames := Some(names);
      case SendMessage(x) =>
        if x.messageAttributes.None? {
          x.messageAttributes := Some(map[]);
        }
        var attributes := InjectAttributes(x.messageAttributes.value, fields);
        x.messageAttributes := Some(attributes);
      case SendMessageBatch(b) =>
        InjectBatch(b, fields);
      case _ =>
      }
      AddMessagingTags(span, "AmazonSQS");
    }

    /** `InvokeSync` / `InvokeAsync`: the span (if any) is current and open
        while the inner handler runs, and is disposed however that call ends. */
    method Invoke(rc: RequestContext?, current: Activity?, baggage: Baggage, sampling: Sampling, inner: InnerHandler)
      returns (o: Outcome<()>, span: Activity?)
      modifies Targets(rc), inner`calls
      ensures o == inner.result
      ensures span == null <==> rc == null || !IsAmazonSqsRequest(rc.originalRequest) || sampling.NotSampled?
      ensures span != null ==>
                && fresh(span) && span.stopped && span.kind == Producer
                && span.operationName == rc.requestName + " send"
                && span.parentContext == ExpectedParent(None, current)
                && span.tags == MessagingTags("AmazonSQS")
      ensures rc != null && rc.originalRequest.ReceiveMessage? ==>
                var x := rc.originalRequest.receive;
                x.messageAttributeNames == Some(AddNames(old(x.messageAttributeNames).GetOr([]), Writes(span, current, baggage)))
      ensures rc != null && rc.originalRequest.SendMessage? ==>
                var x := rc.originalRequest.send;
                x.messageAttributes == Some(AddAbsent(old(x.messageAttributes).GetOr(map[]), Writes(span, current, baggage)))
      ensures rc != null && rc.originalRequest.SendMessageBatch? ==>
                forall e | e in rc.originalRequest.batch.entries ::
                  e.messageAttributes == Some(AddAbsent(old(e.messageAttributes).GetOr(map[]), Writes(span, current, baggage)))
      ensures |inner.calls| == |old(inner.calls)| + 1
      ensures span != null ==> inner.calls[|old(inner.calls)|].currentSpanOpen
    {
      span := ApplyOpenTelemetry(rc, current, baggage, sampling);
      o := inner.Invoke(rc, if span != null then span else current);
      if span != null {
        span.Dispose();
      }
    }
  }
}

module SqsHttpHandler {
  import opened Common
  import opened Diagnostics
  import opened Core
  import opened AwsSdk
  import opened SqsCarriers

  /** The two header values the handler writes: the current span's `Id`
      and `TraceStateString`, both null without a current span. */
  function TracingFields(current: Activity?): seq<Field> {
    [Field(TraceParent, if current != null then Some(current.id) else None),
     Field(TraceState, if current != null then current.TraceStateString() else None)]
  }

  /** The headers after the two `TryAdd` calls. */
  function TracedHeaders(headers: map<string, string>, current: Activity?): map<string, string> {
    Overwrite(headers, Accepted(TracingFields(current), false), Verbatim)
  }

  function Targets(rc: RequestContext?): set<object> {
    if rc != null && IsAmazonSqsRequest(rc.originalRequest) && rc.request != null then {rc.request} else {}
  }

  /** Two `TryAdd` calls are the overwriting run of the writes they accept. */
  lemma TracedHeadersUnfold(headers: map<string, string>, current: Activity?)
    ensures var fs := TracingFields(current);
            var after1 := if IsBlank(fs[0].value) then headers else headers[TraceParent := fs[0].value.value];
            TracedHeaders(headers, current)
              == if IsBlank(fs[1].value) then after1 else after1[TraceState := fs[1].value.value]
  {
    var fs := TracingFields(current);
    assert fs[..0] == [];
    assert fs[..2] == fs;
    AcceptedStep(fs, 0, false);
    AcceptedStep(fs, 1, false);
    var ws1 := Accepted(fs[..1], false);
    var after1 := if IsBlank(fs[0].value) then headers else headers[TraceParent := fs[0].value.value];
    if !IsBlank(fs[0].value) {
      OverwriteSnoc(headers, [], Write(TraceParent, fs[0].value.value), Verbatim);
      assert ws1 == [] + [Write(TraceParent, fs[0].value.value)];
    }
    assert Overwrite(headers, ws1, Verbatim) == after1;
    if !IsBlank(fs[1].value) {
      OverwriteSnoc(headers, ws1, Write(TraceState, fs[1].value.value), Verbatim);
    }
  }

  /** `AddTracingDataIfAbsent`: only for an SQS request; despite its name it
      overwrites headers already present. */
  method AddTracingDataIfAbsent(rc: RequestContext?, current: Activity?)
    modifies Targets(rc)
    ensures rc != null && IsAmazonSqsRequest(rc.originalRequest) && rc.request != null ==>
              rc.request.headers == TracedHeaders(old(rc.request.headers), current)
  {
    if rc == null || !IsAmazonSqsRequest(rc.originalRequest) {
      return;
    }
    var request := rc.request;
    ghost var before := if request != null then request.headers else map[];
    var fields := TracingFields(current);
    TryAddHeader(request, TraceParent, fields[0].value);
    TryAddHeader(request, TraceState, fields[1].value);
    if request != null {
      TracedHeadersUnfold(before, current);
    }
  }

  /** `InvokeSync` / `InvokeAsync`: the headers are written before the inner
      handler runs, so the call it makes carries them. */
  method Invoke(rc: RequestContext?, current: Activity?, inner: InnerHandler) returns (o: Outcome<()>)
    modifies Targets(rc), inner`calls
    ensures o == inner.result
    ensures rc != null && IsAmazonSqsRequest(rc.originalRequest) && rc.request != null ==>
              rc.request.headers == TracedHeaders(old(rc.request.headers), current)
    ensures inner.calls == old(inner.calls) + [Observe(rc, current)]
  {
    AddTracingDataIfAbsent(rc, current);
    o := inner.Invoke(rc, current);
  }

  /** With no current span both values are null and the headers stay as they were. */
  lemma NoCurrentSpanNoHeaders(headers: map<string, string>)
    ensures TracedHeaders(headers, null) == headers
  {
    TracedHeadersUnfold(headers, null);
  }

  /** With a current span whose id is not blank, `traceparent` holds that id
      afterwards, whatever it held before; only the two tracing keys change. */
  lemma TraceParentOverwritten(headers: map<string, string>, current: Activity)
    requires !IsBlank(Some(current.id))
    ensures TraceParent in TracedHeaders(headers, current) && TracedHeaders(headers, current)[TraceParent] == current.id
    ensures forall k | k != TraceParent && k != TraceState ::
              (k in TracedHeaders(headers, current) <==> k in headers) &&
              (k in headers ==> TracedHeaders(headers, current)[k] == headers[k])
  {
    TracedHeadersUnfold(headers, current);
  }
}
