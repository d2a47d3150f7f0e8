/** Stand-ins for the tracing library the repository builds on
    (System.Diagnostics `Activity`, `ActivityContext`, `ActivitySource` and the
    OpenTelemetry `TextMapPropagator`, `PropagationContext`, `Baggage`).
    Only what the repository's own rules observe is kept: identifiers and ids
    are values the library hands out, sampling is a parameter, and the
    propagator is an abstract pair of functions. */
module Diagnostics {
  import opened Common

  datatype ActivityKind = Internal | Server | Client | Producer | Consumer

  datatype ActivityIdFormat = Unknown | Hierarchical | W3C

  /** `ActivityContext`: trace id (32 hex digits), span id (16 hex digits),
      trace flags, trace state and whether it came from another process. */
  datatype ActivityContext = ActivityContext(
    traceId: string,
    spanId: string,
    traceFlags: nat,
    traceState: Option<string>,
    isRemote: bool)

  /** `default(ActivityContext)`: all-zero ids, no flags, no state. */
  const DefaultContext: ActivityContext :=
    ActivityContext("00000000000000000000000000000000", "0000000000000000", 0, None, false)

  /** `Baggage`: string keys to string values, carried opaquely. */
  type Baggage = map<string, string>

  /** `PropagationContext`: what a propagator injects or extracts. */
  datatype PropagationContext = PropagationContext(activityContext: ActivityContext, baggage: Baggage)

  /** One key/value pair a propagator hands to a setter callback; the value may be null. */
  datatype Field = Field(key: string, value: Option<string>)

  /** What a getter callback gives back for a key: the values found, or the exception it threw. */
  datatype Lookup = Values(values: seq<Option<string>>) | LookupThrew(error: Exception)

  /** `TextMapPropagator`, abstractly: `inject` is the sequence of setter calls
      `Inject` makes for a context, `extract` is the context `Extract` builds
      from a fallback context and a getter. Its wire grammar is not modelled. */
  datatype TextMapPropagator = TextMapPropagator(
    inject: PropagationContext -> seq<Field>,
    extract: (PropagationContext, string -> Lookup) -> PropagationContext)

  /** The decision of the `ActivitySource` listeners when a span is requested:
      not sampled (the source returns null), or sampled with the ids the
      library generated for it. */
  datatype Sampling =
    | NotSampled
    | Sampled(context: ActivityContext, idFormat: ActivityIdFormat, id: string)

  /** How the library answers `SetParentId`: it takes the parent, ignores the
      call, or throws. */
  datatype SetParentResponse = Applies | Ignored | Throws(error: Exception)

  /** `Activity`: a span. Its identity is fixed at start; its tags, the
      parent given by `SetParentId` and whether it is stopped change in place. */
  class Activity {
    const operationName: string
    const kind: ActivityKind
    const context: ActivityContext
    const idFormat: ActivityIdFormat
    const id: string
    /** The parent context the span was started with, if any. */
    const parentContext: Option<ActivityContext>
    /** `Activity.Parent`: the in-process parent span, if any. */
    const parent: Activity?
    /** Trace id and span id given to a successful `SetParentId`. */
    var parentIdOverride: Option<(string, string)>
    var tags: map<string, Option<string>>
    var stopped: bool

    constructor Start(name: string, kind: ActivityKind, context: ActivityContext, idFormat: ActivityIdFormat,
                      id: string, parentContext: Option<ActivityContext>, parent: Activity?)
      ensures operationName == name && this.kind == kind && this.context == context
      ensures this.idFormat == idFormat && this.id == id
      ensures this.parentContext == parentContext && this.parent == parent
      ensures parentIdOverride == None && tags == map[] && !stopped
    {
      operationName, this.kind, this.context, this.idFormat, this.id := name, kind, context, idFormat, id;
      this.parentContext, this.parent := parentContext, parent;
      parentIdOverride, tags, stopped := None, map[], false;
    }

    /** `Activity.TraceStateString`. */
    function TraceStateString(): Option<string> {
      context.traceState
    }

    /** `SetTag` with a non-null value: sets or replaces the tag. */
    method SetTag(key: string, value: string)
      modifies this`tags
      ensures tags == old(tags)[key := Some(value)]
    {
      tags := tags[key := Some(value)];
    }

    /** `AddTag`: records the tag, whose value may be null. */
    method AddTag(key: string, value: Option<string>)
      modifies this`tags
      ensures tags == old(tags)[key := value]
    {
      tags := tags[key := value];
    }

    /** `Dispose`: stops the span; stopping twice is harmless. */
    method Dispose()
      modifies this`stopped
      ensures stopped
    {
      stopped := true;
    }

    /** `SetParentId(traceId, spanId)`; whether the library accepts it is its own affair. */
    method SetParentId(traceId: string, spanId: string, response: SetParentResponse) returns (o: Outcome<()>)
      modifies this`parentIdOverride
      ensures o == (if response.Throws? then Threw(response.error) else Returned(()))
      ensures parentIdOverride == (if response.Applies? then Some((traceId, spanId)) else old(parentIdOverride))
    {
      match response
      case Applies =>
        parentIdOverride := Some((traceId, spanId));
        o := Returned(());
      case Ignored =>
        o := Returned(());
      case Throws(e) =>
        o := Threw(e);
    }
  }

  /** `ActivitySource.StartActivity(name, kind[, parentContext])`. Without an
      explicit (non-default) parent context the span becomes a child of
      `current` (`Activity.Current`); an unsampled span is null. */
  method StartActivity(name: string, kind: ActivityKind, parentContext: Option<ActivityContext>,
                       current: Activity?, sampling: Sampling) returns (a: Activity?)
    ensures a == null <==> sampling.NotSampled?
    ensures a != null ==> fresh(a)
    ensures a != null ==> a.operationName == name && a.kind == kind
    ensures a != null ==> a.context == sampling.context && a.idFormat == sampling.idFormat && a.id == sampling.id
    ensures a != null ==> a.parentContext == ExpectedParent(parentContext, current)
    ensures a != null ==> a.tags == map[] && !a.stopped && a.parentIdOverride == None
  {
    if sampling.NotSampled? {
      a := null;
    } else {
      var parent := if parentContext.None? || parentContext.value == DefaultContext then current else null;
      a := new Activity.Start(name, kind, sampling.context, sampling.idFormat, sampling.id,
                              ExpectedParent(parentContext, current), parent);
    }
  }

  /** The parent a new span gets: the explicit one unless it is
      `default(ActivityContext)`, which the library treats as "none given";
      otherwise the current span's context. */
  function ExpectedParent(parentContext: Option<ActivityContext>, current: Activity?): Option<ActivityContext> {
    if parentContext.Some? && parentContext.value != DefaultContext then parentContext
    else if current != null then Some(current.context)
    else None
  }
}
