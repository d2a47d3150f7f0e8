/** Albelli.OpenTelemetry.AspNetCore: `AlbelliAspNetCoreCorrelationProxy`, a
    diagnostic observer that bridges the older `X-CorrelationId` header into
    W3C tracing. When an incoming request carries a GUID correlation id, the
    GUID's N form becomes the trace id of the request span's parent, with
    the placeholder span id `ffffffffffffffff`. */
module AspNetCore {
  import opened Common
  import opened Diagnostics
  import opened Core
  import opened Guids

  const DiagnosticListenerName: string := "Microsoft.AspNetCore"
  const HttpRequestInStart: string := "Microsoft.AspNetCore.Hosting.HttpRequestIn.Start"
  /** `EMPTY_SPAN`. */
  const EmptySpan: string := "ffffffffffffffff"

  /** The payload of a diagnostic event: an `HttpContext` (of which only the
      request headers matter), something else, or null. */
  datatype Payload = HttpContext(requestHeaders: HeaderDictionary) | OtherPayload | NullPayload

  /** `TryResolveCorrelationId`: the first `X-CorrelationId` value, if it
      parses as a GUID other than `Guid.Empty`. Such an id always prints as a
      valid W3C trace id. */
  function TryResolveCorrelationId(headers: HeaderDictionary): (r: Option<Guid>)
    ensures r.Some? ==> CorrelationId in headers && |headers[CorrelationId]| >= 1
                        && TryParse(headers[CorrelationId][0]) == r
    ensures r.Some? ==> r.value != Empty
    ensures r.None? ==> || CorrelationId !in headers || |headers[CorrelationId]| == 0
                        || TryParse(headers[CorrelationId][0]) in {None, Some(Empty)}
  {
    if CorrelationId in headers && |headers[CorrelationId]| >= 1
       && TryParse(headers[CorrelationId][0]).Some? && TryParse(headers[CorrelationId][0]).value != Empty
    then TryParse(headers[CorrelationId][0])
    else None
  }

  /** What `Start` does to the current span. */
  datatype BridgeAction =
    | NoBridge
    /** W3C span without a parent: `SetParentId`, whose exception escapes. */
    | SetParent(traceId: string)
    /** Hierarchical span: `SetParentId` inside `try`, any exception swallowed. */
    | TryOverrideParent(traceId: string)

  /** The decision `Start` takes for a request's headers and the current span. */
  function Bridge(headers: HeaderDictionary, current: Activity?): (b: BridgeAction)
    ensures b != NoBridge ==> current != null
    ensures b != NoBridge ==> TryResolveCorrelationId(headers).Some?
                              && b.traceId == FormatN(TryResolveCorrelationId(headers).value)
    ensures b.SetParent? <==> current != null && current.idFormat == W3C && current.parent == null
                              && TryResolveCorrelationId(headers).Some?
    ensures b.TryOverrideParent? <==> current != null && current.idFormat == Hierarchical
                                      && TryResolveCorrelationId(headers).Some?
  {
    if TryResolveCorrelationId(headers).None? || current == null then NoBridge
    else if current.idFormat == W3C then
      (if current.parent == null then SetParent(FormatN(TryResolveCorrelationId(headers).value)) else NoBridge)
    else if current.idFormat == Hierarchical then TryOverrideParent(FormatN(TryResolveCorrelationId(headers).value))
    else NoBridge
  }

  /** `Start(HttpContext)`; `response` is how the library answers `SetParentId`. */
  method Start(ctx: Option<HeaderDictionary>, current: Activity?, response: SetParentResponse) returns (o: Outcome<()>)
    modifies current
    ensures current != null ==> unchanged(current`tags, current`stopped)
    ensures ctx.None? ==> o == Returned(()) && (current != null ==> unchanged(current))
    ensures ctx.Some? ==>
              var b := Bridge(ctx.value, current);
              && (o.Threw? <==> b.SetParent? && response.Throws?)
              && (o.Threw? ==> o.error == response.error)
              && (current != null ==>
                    current.parentIdOverride
                      == if b != NoBridge && response.Applies? then Some((b.traceId, EmptySpan))
                         else old(current.parentIdOverride))
  {
    if ctx.None? {
      return Returned(());
    }
    var resolved := TryResolveCorrelationId(ctx.value);
    o := Returned(());
    if current != null && resolved.Some? {
      var parentId := FormatN(resolved.value);
      if current.idFormat == W3C {
        if current.parent == null {
          o := current.SetParentId(parentId, EmptySpan, response);
        }
      } else if current.idFormat == Hierarchical {
        var ignored := current.SetParentId(parentId, EmptySpan, response);
      }
    }
  }

  /** `OnNext(KeyValuePair<string, object>)`: only the request-start event,
      compared ignoring case, and only with an `HttpContext` payload. */
  method OnNext(key: string, payload: Payload, current: Activity?, response: SetParentResponse) returns (o: Outcome<()>)
    modifies current
    ensures current != null ==> unchanged(current`tags, current`stopped)
    ensures !(EqualsIgnoreCase(key, HttpRequestInStart) && payload.HttpContext?) ==>
              o == Returned(()) && (current != null ==> unchanged(current))
    ensures EqualsIgnoreCase(key, HttpRequestInStart) && payload.HttpContext? ==>
              var b := Bridge(payload.requestHeaders, current);
              && (o.Threw? <==> b.SetParent? && response.Throws?)
              && (current != null ==>
                    current.parentIdOverride
                      == if b != NoBridge && response.Applies? then Some((b.traceId, EmptySpan))
                         else old(current.parentIdOverride))
  {
    if EqualsIgnoreCase(key, HttpRequestInStart) {
      o := Start(if payload.HttpContext? then Some(payload.requestHeaders) else None, current, response);
    } else {
      o := Returned(());
    }
  }

  /** Whatever the headers, a bridged parent id is a valid W3C trace id: 32
      lower-case hex digits, not all zero. */
  lemma BridgedIdIsTraceId(headers: HeaderDictionary, current: Activity?)
    requires Bridge(headers, current) != NoBridge
    ensures IsW3CTraceId(Bridge(headers, current).traceId)
  {
    FormatNTraceId(TryResolveCorrelationId(headers).value);
  }

  /** A request whose `X-CorrelationId` is a GUID written in the D form
      bridges to the trace id `ToString("N")` prints for it, unless it is
      the nil GUID. */
  lemma CorrelationIdBridges(headers: HeaderDictionary, g: Guid, rest: seq<Option<string>>)
    requires CorrelationId in headers && headers[CorrelationId] == [Some(FormatD(g))] + rest
    ensures g != Empty ==> TryResolveCorrelationId(headers) == Some(g)
    ensures g == Empty ==> TryResolveCorrelationId(headers).None?
  {
    ParseFormatD(g);
  }

  /** A request without a usable correlation id leaves the span untouched,
      whatever its id format. */
  lemma NoCorrelationNoBridge(headers: HeaderDictionary, current: Activity?)
    requires CorrelationId !in headers || |headers[CorrelationId]| == 0
             || TryParse(headers[CorrelationId][0]) in {None, Some(Empty)}
    ensures Bridge(headers, current) == NoBridge
  {
  }

  /** A disposable subscription to a diagnostic listener. */
  class Subscription {
    var disposed: bool

    constructor ()
      ensures !disposed
    {
      disposed := false;
    }

    method Dispose()
      modifies this
      ensures disposed
    {
      disposed := true;
    }
  }

  /** The observer's subscription list. Its constructor also switches the
      process to the W3C id format; that global setting is not modelled. */
  class CorrelationProxy {
    var subscriptions: seq<Subscription>

    constructor ()
      ensures subscriptions == []
    {
      subscriptions := [];
    }

    /** `IObserver<DiagnosticListener>.OnNext`: subscribe to the listener
        named `Microsoft.AspNetCore` (ignoring case), and to no other. */
    method OnNextListener(name: string) returns (added: Subscription?)
      modifies this`subscriptions
      ensures EqualsIgnoreCase(name, DiagnosticListenerName) ==>
                added != null && fresh(added) && !added.disposed && subscriptions == old(subscriptions) + [added]
      ensures !EqualsIgnoreCase(name, DiagnosticListenerName) ==>
                added == null && subscriptions == old(subscriptions)
    {
      added := null;
      if EqualsIgnoreCase(name, DiagnosticListenerName) {
        added := new Subscription();
        subscriptions := subscriptions + [added];
      }
    }

    /** `IObserver<DiagnosticListener>.OnCompleted`: dispose every
        subscription, then forget them all. */
    method OnCompletedListeners()
      modifies this`subscriptions, set s | s in subscriptions
      ensures forall s | s in old(subscriptions) :: s.disposed
      ensures subscriptions == []
    {
      for i := 0 to |subscriptions|
        invariant subscriptions == old(subscriptions)
        invariant forall j | 0 <= j < i :: subscriptions[j].disposed
      {
        subscriptions[i].Dispose();
      }
      subscriptions := [];
    }
  }
}
