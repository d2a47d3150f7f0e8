/** Albelli.OpenTelemetry.Core: the well-known keys, `SafeGetContext`, and the
    rule every setter callback shares: which propagator fields it accepts,
    and what a run of overwriting writes leaves in a carrier. */
module Core {
  import opened Common
  import opened Diagnostics

  const TraceParent: string := "traceparent"
  const TraceState: string := "tracestate"
  const CorrelationId: string := "X-CorrelationId"

  /** `SafeGetContext`: the span's own context; if the span was not created
      (unsampled), the current span's; otherwise the empty default. The
      contract lists the three cases; `FallbackParentIsCurrent` states what
      the fallback means for the parent of a span started from it. */
  function SafeGetContext(activity: Activity?, current: Activity?): (c: ActivityContext)
    ensures activity != null ==> c == activity.context
    ensures activity == null && current != null ==> c == current.context
    ensures activity == null && current == null ==> c == DefaultContext
  {
    if activity != null then activity.context
    else if current != null then current.context
    else DefaultContext
  }

  /** The tags `AddMessagingTags` puts on a Producer span. */
  function MessagingTags(system: string): map<string, Option<string>> {
    map["messaging.system" := Some(system), "messaging.destination_kind" := Some("queue")]
  }

  /** `AddMessagingTags` of the SQS and SNS attribute handlers (`system` is
      `"AmazonSQS"` or `"AmazonSNS"`): a no-op on a null span. */
  method AddMessagingTags(activity: Activity?, system: string)
    modifies activity
    ensures activity != null ==>
              activity.tags == old(activity.tags)["messaging.system" := Some(system)]
                                                 ["messaging.destination_kind" := Some("queue")]
    ensures activity != null ==> unchanged(activity`stopped, activity`parentIdOverride)
  {
    if activity != null {
      activity.SetTag("messaging.system", system);
      activity.SetTag("messaging.destination_kind", "queue");
    }
  }

  /** When the propagator finds nothing and hands back the fallback context
      (`Activity.Current.SafeGetContext()`), the new span's parent is what it
      would have been without an explicit parent: the current span. */
  lemma FallbackParentIsCurrent(current: Activity?)
    ensures ExpectedParent(Some(SafeGetContext(current, current)), current) == ExpectedParent(None, current)
  {
  }

  /** A write a setter makes into its carrier. */
  datatype Write = Write(key: string, value: string)

  /** The write a setter makes for one field: none when the value is blank,
      or, for setters that also check it, when the key is blank. */
  function Accept(f: Field, keyChecked: bool): Option<Write> {
    if IsBlank(f.value) || (keyChecked && IsBlank(Some(f.key))) then None
    else Some(Write(f.key, f.value.value))
  }

  /** The writes a setter makes for a run of fields, in order. */
  function Accepted(fields: seq<Field>, keyChecked: bool): (ws: seq<Write>)
    ensures |ws| <= |fields|
    ensures forall w | w in ws :: exists f | f in fields :: Accept(f, keyChecked) == Some(w)
  {
    if fields == [] then []
    else
      var front := Accepted(fields[..|fields| - 1], keyChecked);
      var last := fields[|fields| - 1];
      assert forall f | f in fields[..|fields| - 1] :: f in fields;
      match Accept(last, keyChecked)
      case None => front
      case Some(w) => front + [w]
  }

  lemma AcceptedStep(fields: seq<Field>, i: nat, keyChecked: bool)
    requires i < |fields|
    ensures Accepted(fields[..i + 1], keyChecked)
         == Accepted(fields[..i], keyChecked)
            + (match Accept(fields[i], keyChecked) case None => [] case Some(w) => [w])
  {
    assert fields[..i + 1][..i] == fields[..i];
  }

  /** The value the last write for `key` wrote, if any write was for `key`. */
  function LastValue(writes: seq<Write>, key: string): Option<string> {
    if writes == [] then None
    else if writes[|writes| - 1].key == key then Some(writes[|writes| - 1].value)
    else LastValue(writes[..|writes| - 1], key)
  }

  /** Header dictionaries store the written string itself. */
  function Verbatim(s: string): string {
    s
  }

  /** A run of overwriting writes into a dictionary (`carrier[key] = value`);
      `wrap` turns the written string into the dictionary's value type. */
  function Overwrite<V>(m: map<string, V>, writes: seq<Write>, wrap: string -> V): map<string, V> {
    if writes == [] then m
    else
      var w := writes[|writes| - 1];
      Overwrite(m, writes[..|writes| - 1], wrap)[w.key := wrap(w.value)]
  }

  lemma OverwriteSnoc<V>(m: map<string, V>, writes: seq<Write>, w: Write, wrap: string -> V)
    ensures Overwrite(m, writes + [w], wrap) == Overwrite(m, writes, wrap)[w.key := wrap(w.value)]
  {
    assert (writes + [w])[..|writes|] == writes;
  }

  /** One more field through an overwriting setter: the run of accepted
      writes grows by that field's write, if it is accepted. */
  lemma OverwriteAcceptedStep<V>(m: map<string, V>, fields: seq<Field>, i: nat, keyChecked: bool, wrap: string -> V)
    requires i < |fields|
    ensures Overwrite(m, Accepted(fields[..i + 1], keyChecked), wrap)
         == match Accept(fields[i], keyChecked)
            case None => Overwrite(m, Accepted(fields[..i], keyChecked), wrap)
            case Some(w) => Overwrite(m, Accepted(fields[..i], keyChecked), wrap)[w.key := wrap(w.value)]
  {
    AcceptedStep(fields, i, keyChecked);
    var ws := Accepted(fields[..i], keyChecked);
    match Accept(fields[i], keyChecked)
    case None =>
      assert ws + [] == ws;
    case Some(w) =>
      OverwriteSnoc(m, ws, w, wrap);
  }

  /** After overwriting writes a key holds the last value written for it, and
      a key nobody wrote keeps its old entry (or stays absent). */
  lemma {:induction false} OverwriteAt<V>(m: map<string, V>, writes: seq<Write>, wrap: string -> V, k: string)
    ensures k in Overwrite(m, writes, wrap) <==> k in m || LastValue(writes, k).Some?
    ensures LastValue(writes, k).Some? ==> Overwrite(m, writes, wrap)[k] == wrap(LastValue(writes, k).value)
    ensures LastValue(writes, k).None? && k in m ==> Overwrite(m, writes, wrap)[k] == m[k]
  {
    if writes != [] {
      OverwriteAt(m, writes[..|writes| - 1], wrap, k);
    }
  }

  /** Overwriting with the same writes a second time changes nothing: a
      retried setter run leaves the carrier as one run did. */
  lemma OverwriteIdempotent<V>(m: map<string, V>, writes: seq<Write>, wrap: string -> V)
    ensures Overwrite(Overwrite(m, writes, wrap), writes, wrap) == Overwrite(m, writes, wrap)
  {
    var once := Overwrite(m, writes, wrap);
    var twice := Overwrite(once, writes, wrap);
    forall k
      ensures k in twice <==> k in once
      ensures k in once ==> twice[k] == once[k]
    {
      OverwriteAt(m, writes, wrap, k);
      OverwriteAt(once, writes, wrap, k);
    }
  }
}
