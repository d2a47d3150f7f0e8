/** The rule both pipeline customizers follow: unless the pipeline already
    holds their message-attribute handler, put the header handler right
    after the `Marshaller` and the attribute handler outermost. `guard`
    recognises the attribute handler by type. */
module PipelineCustomization {
  import opened Common
  import opened AwsSdk

  /** `handlers.Any(a => a is <attribute handler>)`. */
  predicate Contains(hs: seq<Handler>, guard: Handler -> bool) {
    exists j | 0 <= j < |hs| :: guard(hs[j])
  }

  /** The handler list `Customize` leaves, or the exception it throws. */
  function Customized(hs: seq<Handler>, guard: Handler -> bool, http: Handler, attribute: Handler): Outcome<seq<Handler>> {
    if Contains(hs, guard) then Returned(hs)
    else match FirstMarshaller(hs)
      case None => Threw(MissingMarshaller)
      case Some(i) => Returned([attribute] + (hs[..i + 1] + [http] + hs[i + 1..]))
  }

  /** The pipeline after `Customize`, whether it returned or threw. */
  function HandlersAfter(hs: seq<Handler>, guard: Handler -> bool, http: Handler, attribute: Handler): seq<Handler> {
    match Customized(hs, guard, http, attribute)
    case Returned(r) => r
    case Threw(_) => hs
  }

  /** How many handlers the guard recognises. */
  function Count(hs: seq<Handler>, guard: Handler -> bool): nat {
    if hs == [] then 0 else (if guard(hs[0]) then 1 else 0) + Count(hs[1..], guard)
  }

  lemma {:induction false} CountConcat(a: seq<Handler>, b: seq<Handler>, guard: Handler -> bool)
    ensures Count(a + b, guard) == Count(a, guard) + Count(b, guard)
  {
    if a != [] {
      assert (a + b)[1..] == a[1..] + b;
      CountConcat(a[1..], b, guard);
    } else {
      assert a + b == b;
    }
  }

  lemma {:induction false} CountZero(hs: seq<Handler>, guard: Handler -> bool)
    requires !Contains(hs, guard)
    ensures Count(hs, guard) == 0
  {
    if hs != [] {
      assert !guard(hs[0]);
      assert forall j | 0 <= j < |hs[1..]| :: hs[1..][j] == hs[j + 1];
      CountZero(hs[1..], guard);
    }
  }

  /** Inserting `http` after index `i` and `attribute` in front moves every
      other handler by one or two places and keeps their order. */
  lemma InsertedAfter(hs: seq<Handler>, i: nat, http: Handler, attribute: Handler)
    requires i < |hs|
    ensures var r := [attribute] + (hs[..i + 1] + [http] + hs[i + 1..]);
            && |r| == |hs| + 2 && r[0] == attribute && r[i + 1] == hs[i] && r[i + 2] == http
            && r[1..i + 2] + r[i + 3..] == hs
  {
    var r := [attribute] + (hs[..i + 1] + [http] + hs[i + 1..]);
    assert r[1..i + 2] == hs[..i + 1];
    assert r[i + 3..] == hs[i + 1..];
    assert hs[..i + 1] + hs[i + 1..] == hs;
  }

  /** On a pipeline without the attribute handler but with a `Marshaller`,
      `Customize` adds exactly two handlers: the attribute handler first and
      the header handler right after the first `Marshaller`; the others keep
      their order. Without a `Marshaller` it throws and adds nothing. */
  lemma CustomizeInserts(hs: seq<Handler>, guard: Handler -> bool, http: Handler, attribute: Handler)
    requires !Contains(hs, guard)
    ensures FirstMarshaller(hs).None? ==>
              Customized(hs, guard, http, attribute).Threw? && HandlersAfter(hs, guard, http, attribute) == hs
    ensures FirstMarshaller(hs).Some? ==>
              var i := FirstMarshaller(hs).value;
              var r := HandlersAfter(hs, guard, http, attribute);
              && |r| == |hs| + 2
              && r[0] == attribute && r[i + 1] == Marshaller && r[i + 2] == http
              && r[1..i + 2] + r[i + 3..] == hs
  {
    if FirstMarshaller(hs).Some? {
      var i := FirstMarshaller(hs).value;
      assert HandlersAfter(hs, guard, http, attribute) == [attribute] + (hs[..i + 1] + [http] + hs[i + 1..]);
      InsertedAfter(hs, i, http, attribute);
    }
  }

  /** Customizing a second time changes nothing, provided the guard
      recognises the attribute handler it inserts. */
  lemma CustomizeIdempotent(hs: seq<Handler>, guard: Handler -> bool, http: Handler, attribute: Handler)
    requires guard(attribute)
    ensures HandlersAfter(HandlersAfter(hs, guard, http, attribute), guard, http, attribute)
         == HandlersAfter(hs, guard, http, attribute)
  {
    var once := HandlersAfter(hs, guard, http, attribute);
    if !Contains(hs, guard) && FirstMarshaller(hs).Some? {
      assert guard(once[0]);
    }
  }

  /** However often a customizer runs on a pipeline that had no attribute
      handler but a `Marshaller`, the pipeline ends with exactly one. */
  lemma CustomizeLeavesOne(hs: seq<Handler>, guard: Handler -> bool, http: Handler, attribute: Handler)
    requires !Contains(hs, guard) && FirstMarshaller(hs).Some?
    requires guard(attribute) && !guard(http)
    ensures Count(HandlersAfter(hs, guard, http, attribute), guard) == 1
    ensures Count(HandlersAfter(HandlersAfter(hs, guard, http, attribute), guard, http, attribute), guard) == 1
  {
    var i := FirstMarshaller(hs).value;
    var r := HandlersAfter(hs, guard, http, attribute);
    assert hs[..i + 1] + hs[i + 1..] == hs;
    assert !Contains(hs[..i + 1], guard) by {
      assert forall j | 0 <= j < i + 1 :: hs[..i + 1][j] == hs[j];
    }
    assert !Contains(hs[i + 1..], guard) by {
      assert forall j | i + 1 <= j < |hs| :: hs[i + 1..][j - (i + 1)] == hs[j];
    }
    CountZero(hs[..i + 1], guard);
    CountZero(hs[i + 1..], guard);
    assert Count([http], guard) == 0;
    assert Count([attribute], guard) == 1;
    CountConcat(hs[..i + 1], [http], guard);
    CountConcat(hs[..i + 1] + [http], hs[i + 1..], guard);
    CountConcat([attribute], hs[..i + 1] + [http] + hs[i + 1..], guard);
    CustomizeIdempotent(hs, guard, http, attribute);
  }
}

/** `OpenTelemetrySqsPipelineCustomizer`. */
module SqsCustomizer {
  import opened Common
  import opened Diagnostics
  import opened AwsSdk
  import opened PipelineCustomization

  /** `UniqueName`: `nameof(OpenTelemetrySqsPipelineCustomizer)`. */
  const UniqueName: string := "OpenTelemetrySqsPipelineCustomizer"

  /** `a is OpenTelemetrySqsMessageAttributePipelineHandler`. */
  predicate IsSqsAttributeHandler(h: Handler) {
    h.SqsMessageAttributeHandler?
  }

  /** `Customize(type, pipeline)`; the attribute handler gets `propagator`. */
  method Customize(pipeline: RuntimePipeline, propagator: TextMapPropagator) returns (o: Outcome<()>)
    modifies pipeline
    ensures var c := Customized(old(pipeline.handlers), IsSqsAttributeHandler, SqsHttpRequestHandler,
                                SqsMessageAttributeHandler(propagator));
            o == (if c.Returned? then Returned(()) else Threw(c.error))
    ensures pipeline.handlers == HandlersAfter(old(pipeline.handlers), IsSqsAttributeHandler, SqsHttpRequestHandler,
                                               SqsMessageAttributeHandler(propagator))
  {
    var handlers := pipeline.handlers;
    if exists j | 0 <= j < |handlers| :: handlers[j].SqsMessageAttributeHandler? {
      return Returned(());
    }
    o := pipeline.AddHandlerAfterMarshaller(SqsHttpRequestHandler);
    if o.Threw? {
      return;
    }
    pipeline.AddHandler(SqsMessageAttributeHandler(propagator));
  }

  /** Registering the SQS customizer for a client twice leaves exactly one
      attribute handler, as once does. */
  lemma SqsCustomizeTwiceIsOnce(hs: seq<Handler>, propagator: TextMapPropagator)
    requires !Contains(hs, IsSqsAttributeHandler) && FirstMarshaller(hs).Some?
    ensures var once := HandlersAfter(hs, IsSqsAttributeHandler, SqsHttpRequestHandler, SqsMessageAttributeHandler(propagator));
            && HandlersAfter(once, IsSqsAttributeHandler, SqsHttpRequestHandler, SqsMessageAttributeHandler(propagator)) == once
            && Count(once, IsSqsAttributeHandler) == 1
  {
    CustomizeLeavesOne(hs, IsSqsAttributeHandler, SqsHttpRequestHandler, SqsMessageAttributeHandler(propagator));
    CustomizeIdempotent(hs, IsSqsAttributeHandler, SqsHttpRequestHandler, SqsMessageAttributeHandler(propagator));
  }
}

/** `OpenTelemetrySnsPipelineCustomizer`. */
module SnsCustomizer {
  import opened Common
  import opened Diagnostics
  import opened AwsSdk
  import opened PipelineCustomization

  /** `UniqueName`: `nameof(OpenTelemetrySnsPipelineCustomizer)`. */
  const UniqueName: string := "OpenTelemetrySnsPipelineCustomizer"

  /** `a is OpenTelemetrySnsMessageAttributePipelineHandler`. */
  predicate IsSnsAttributeHandler(h: Handler) {
    h.SnsMessageAttributeHandler?
  }

  /** `Customize(type, pipeline)`; both SNS handlers get a propagator. */
  method Customize(pipeline: RuntimePipeline, headerPropagator: TextMapPropagator, attributePropagator: TextMapPropagator)
    returns (o: Outcome<()>)
    modifies pipeline
    ensures var c := Customized(old(pipeline.handlers), IsSnsAttributeHandler, SnsHttpRequestHandler(headerPropagator),
                                SnsMessageAttributeHandler(attributePropagator));
            o == (if c.Returned? then Returned(()) else Threw(c.error))
    ensures pipeline.handlers == HandlersAfter(old(pipeline.handlers), IsSnsAttributeHandler,
                                               SnsHttpRequestHandler(headerPropagator),
                                               SnsMessageAttributeHandler(attributePropagator))
  {
    var handlers := pipeline.handlers;
    if exists j | 0 <= j < |handlers| :: handlers[j].SnsMessageAttributeHandler? {
      return Returned(());
    }
    o := pipeline.AddHandlerAfterMarshaller(SnsHttpRequestHandler(headerPropagator));
    if o.Threw? {
      return;
    }
    pipeline.AddHandler(SnsMessageAttributeHandler(attributePropagator));
  }

  /** Registering the SNS customizer twice leaves exactly one attribute handler. */
  lemma SnsCustomizeTwiceIsOnce(hs: seq<Handler>, headerPropagator: TextMapPropagator, attributePropagator: TextMapPropagator)
    requires !Contains(hs, IsSnsAttributeHandler) && FirstMarshaller(hs).Some?
    ensures var once := HandlersAfter(hs, IsSnsAttributeHandler, SnsHttpRequestHandler(headerPropagator),
                                      SnsMessageAttributeHandler(attributePropagator));
            && HandlersAfter(once, IsSnsAttributeHandler, SnsHttpRequestHandler(headerPropagator),
                             SnsMessageAttributeHandler(attributePropagator)) == once
            && Count(once, IsSnsAttributeHandler) == 1
  {
    CustomizeLeavesOne(hs, IsSnsAttributeHandler, SnsHttpRequestHandler(headerPropagator),
                       SnsMessageAttributeHandler(attributePropagator));
    CustomizeIdempotent(hs, IsSnsAttributeHandler, SnsHttpRequestHandler(headerPropagator),
                        SnsMessageAttributeHandler(attributePropagator));
  }
}
