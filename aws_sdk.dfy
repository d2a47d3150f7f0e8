/** Stand-ins for the parts of the AWS SDK the handlers touch: the SQS and SNS
    request objects (whose collections the handlers change in place), the
    marshalled HTTP request, the request context a pipeline handler receives,
    the inner handler it calls, and the runtime pipeline's handler list. */
module AwsSdk {
  import opened Common
  import opened Diagnostics

  /** `MessageAttributeValue` (SQS and SNS have one each, of the same shape;
      the binary payload is not modelled). */
  datatype MessageAttributeValue = MessageAttributeValue(dataType: Option<string>, stringValue: Option<string>)

  /** The attribute the handlers write: `{ DataType = "String", StringValue = value }`. */
  function StringAttribute(value: string): MessageAttributeValue {
    MessageAttributeValue(Some("String"), Some(value))
  }

  type AttributeMap = map<string, MessageAttributeValue>

  /** SQS `ReceiveMessageRequest`: `MessageAttributeNames` may be null. */
  class ReceiveMessageRequest {
    var messageAttributeNames: Option<seq<string>>
    constructor (names: Option<seq<string>>)
      ensures messageAttributeNames == names
    {
      messageAttributeNames := names;
    }
  }

  /** SQS `SendMessageRequest`: `MessageAttributes` may be null. */
  class SendMessageRequest {
    var messageAttributes: Option<AttributeMap>
    constructor (attributes: Option<AttributeMap>)
      ensures messageAttributes == attributes
    {
      messageAttributes := attributes;
    }
  }

  /** SQS `SendMessageBatchRequestEntry`: one message of a batch. */
  class SendMessageBatchRequestEntry {
    var messageAttributes: Option<AttributeMap>
    constructor (attributes: Option<AttributeMap>)
      ensures messageAttributes == attributes
    {
      messageAttributes := attributes;
    }
  }

  /** SQS `SendMessageBatchRequest`; the handlers change the entries, never the list. */
  class SendMessageBatchRequest {
    const entries: seq<SendMessageBatchRequestEntry>
    constructor (entries: seq<SendMessageBatchRequestEntry>)
      ensures this.entries == entries
    {
      this.entries := entries;
    }
  }

  /** SNS `PublishRequest`: `MessageAttributes` may be null. */
  class PublishRequest {
    var messageAttributes: Option<AttributeMap>
    constructor (attributes: Option<AttributeMap>)
      ensures messageAttributes == attributes
    {
      messageAttributes := attributes;
    }
  }

  /** The original (high-level) request of a call, by its runtime type. */
  datatype OriginalRequest =
    | NoRequest
    | ReceiveMessage(receive: ReceiveMessageRequest)
    | SendMessage(send: SendMessageRequest)
    | SendMessageBatch(batch: SendMessageBatchRequest)
    | OtherSqsRequest
    | Publish(publish: PublishRequest)
    | OtherSnsRequest
    | OtherServiceRequest

  /** `request is AmazonSQSRequest`. */
  predicate IsAmazonSqsRequest(r: OriginalRequest) {
    r.ReceiveMessage? || r.SendMessage? || r.SendMessageBatch? || r.OtherSqsRequest?
  }

  /** The objects an attribute handler may change for an original request. */
  function RequestObjects(r: OriginalRequest): set<object> {
    match r
    case ReceiveMessage(x) => {x}
    case SendMessage(x) => {x}
    case SendMessageBatch(b) => set e | e in b.entries :: e as object
    case Publish(x) => {x}
    case _ => {}
  }

  /** `IRequest`: the marshalled request, whose headers go on the wire. */
  class HttpRequest {
    var headers: map<string, string>
    constructor (headers: map<string, string>)
      ensures this.headers == headers
    {
      this.headers := headers;
    }
  }

  /** `IRequestContext`: the original request, the marshalled request (null
      before the `Marshaller` has run) and the request name. */
  class RequestContext {
    const originalRequest: OriginalRequest
    const request: HttpRequest?
    const requestName: string
    constructor (originalRequest: OriginalRequest, request: HttpRequest?, requestName: string)
      ensures this.originalRequest == originalRequest && this.request == request
      ensures this.requestName == requestName
    {
      this.originalRequest, this.request, this.requestName := originalRequest, request, requestName;
    }
  }

  /** What the inner handler saw when it was called: the wire headers, and
      whether the current span was still open. */
  datatype Observation = Observation(headers: Option<map<string, string>>, currentSpanOpen: bool)

  function Observe(rc: RequestContext?, current: Activity?): Observation
    reads if rc != null && rc.request != null then {rc.request} else {}, current
  {
    Observation(
      if rc != null && rc.request != null then Some(rc.request.headers) else None,
      current == null || !current.stopped)
  }

  /** `base.InvokeSync` / `base.InvokeAsync`: the rest of the pipeline, opaque.
      It ends as `result` says (returns or throws) and records what it saw. */
  class InnerHandler {
    const result: Outcome<()>
    var calls: seq<Observation>

    constructor (result: Outcome<()>)
      ensures this.result == result && calls == []
    {
      this.result := result;
      calls := [];
    }

    method Invoke(rc: RequestContext?, current: Activity?) returns (o: Outcome<()>)
      modifies this`calls
      ensures o == result
      ensures calls == old(calls) + [Observe(rc, current)]
    {
      calls := calls + [Observe(rc, current)];
      o := result;
    }
  }

  /** A handler in the runtime pipeline, by type. The handlers of this
      repository carry the propagator they were built with. */
  datatype Handler =
    | Marshaller
    | Signer
    | HttpHandler
    | OtherHandler(name: string)
    | SqsHttpRequestHandler
    | SqsMessageAttributeHandler(sqsPropagator: TextMapPropagator)
    | SnsHttpRequestHandler(snsHeaderPropagator: TextMapPropagator)
    | SnsMessageAttributeHandler(snsPropagator: TextMapPropagator)

  /** Index of the outermost `Marshaller`, the one `AddHandlerAfter<Marshaller>` finds. */
  function FirstMarshaller(hs: seq<Handler>): (r: Option<nat>)
    ensures r.Some? ==> r.value < |hs| && hs[r.value].Marshaller?
    ensures r.Some? ==> forall j | 0 <= j < r.value :: !hs[j].Marshaller?
    ensures r.None? ==> forall j | 0 <= j < |hs| :: !hs[j].Marshaller?
  {
    if hs == [] then None
    else if hs[0].Marshaller? then Some(0)
    else match FirstMarshaller(hs[1..])
      case None => None
      case Some(i) => Some(i + 1)
  }

  /** The `InvalidOperationException` `AddHandlerAfter` throws when the
      pipeline has no handler of the requested type (its message is the
      SDK's own and is not modelled). */
  const MissingMarshaller: Exception := InvalidOperation("Marshaller")

  /** `RuntimePipeline`: handlers from outermost to innermost. */
  class RuntimePipeline {
    var handlers: seq<Handler>

    constructor (handlers: seq<Handler>)
      ensures this.handlers == handlers
    {
      this.handlers := handlers;
    }

    /** `AddHandler`: the new handler becomes the outermost one. */
    method AddHandler(h: Handler)
      modifies this`handlers
      ensures handlers == [h] + old(handlers)
    {
      handlers := [h] + handlers;
    }

    /** `AddHandlerAfter<Marshaller>`: the new handler runs right after the
        `Marshaller`; without one the SDK throws `InvalidOperationException`. */
    method AddHandlerAfterMarshaller(h: Handler) returns (o: Outcome<()>)
      modifies this`handlers
      ensures FirstMarshaller(old(handlers)).None? ==>
                o == Threw(MissingMarshaller) && handlers == old(handlers)
      ensures FirstMarshaller(old(handlers)).Some? ==>
                var i := FirstMarshaller(old(handlers)).value;
                o == Returned(()) && handlers == old(handlers)[..i + 1] + [h] + old(handlers)[i + 1..]
    {
      match FirstMarshaller(handlers)
      case None =>
        o := Threw(MissingMarshaller);
      case Some(i) =>
        handlers := handlers[..i + 1] + [h] + handlers[i + 1..];
        o := Returned(());
    }
  }
}
