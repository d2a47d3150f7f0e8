/** Albelli.OpenTelemetry.SQS, the carrier rules: the `TryAdd` overloads of
    `OpenTelemetrySqs` and the two setter callbacks of the message-attribute
    handler. SQS never overwrites a message attribute that is already there,
    and asks for an attribute back only when the allow-list does not already
    hold it or the `"All"` sentinel. */
module SqsCarriers {
  import opened Common
  import opened Diagnostics
  import opened Core
  import opened AwsSdk

  /** The allow-list entry meaning "return every attribute". */
  const AllAttributes: string := "All"

  /** `TryAdd(SendMessageRequest | SendMessageBatchRequestEntry, key, value)`
      once the map exists: a non-blank value under a new key is added as a
      String attribute; nothing is ever overwritten. */
  function TryAddAttribute(m: AttributeMap, key: string, value: Option<string>): (r: AttributeMap)
    ensures forall k | k in m :: k in r && r[k] == m[k]
    ensures r.Keys == if IsBlank(value) then m.Keys else m.Keys + {key}
    ensures key in r && key !in m ==> r[key] == StringAttribute(value.value)
  {
    if !IsBlank(value) && key !in m then m[key := StringAttribute(value.value)] else m
  }

  /** `TryAdd(ReceiveMessageRequest, key)` once the list exists: ask for `key`
      unless it or `"All"` is already asked for. The key is not checked. */
  function TryAddName(names: seq<string>, key: string): (r: seq<string>)
    ensures names <= r && |r| <= |names| + 1
    ensures key in r || AllAttributes in r
    ensures key in names || AllAttributes in names ==> r == names
    ensures key !in names && AllAttributes !in names ==> r == names + [key]
  {
    if key !in names && AllAttributes !in names then names + [key] else names
  }

  /** `InjectToMessageAttributes`: the setter the handler gives the propagator. */
  function InjectToMessageAttributes(m: AttributeMap, key: string, value: Option<string>): AttributeMap {
    if IsBlank(Some(key)) || IsBlank(value) then m else TryAddAttribute(m, key, value)
  }

  /** `InjectToMessageAttributeNames`: the allow-list setter; unlike `TryAdd`,
      it skips blank keys and blank values. */
  function InjectToMessageAttributeNames(names: seq<string>, key: string, value: Option<string>): seq<string> {
    if IsBlank(Some(key)) || IsBlank(value) then names else TryAddName(names, key)
  }

  /** The value the first write for `key` carries, if any. */
  function FirstValue(writes: seq<Write>, key: string): Option<string> {
    if writes == [] then None
    else
      var earlier := FirstValue(writes[..|writes| - 1], key);
      if earlier.Some? then earlier
      else if writes[|writes| - 1].key == key then Some(writes[|writes| - 1].value)
      else None
  }

  /** A run of non-overwriting attribute writes. */
  function AddAbsent(m: AttributeMap, writes: seq<Write>): AttributeMap {
    if writes == [] then m
    else
      var before := AddAbsent(m, writes[..|writes| - 1]);
      var w := writes[|writes| - 1];
      if w.key in before then before else before[w.key := StringAttribute(w.value)]
  }

  /** A run of allow-list writes: each asks for its key. */
  function AddNames(names: seq<string>, writes: seq<Write>): seq<string> {
    if writes == [] then names
    else TryAddName(AddNames(names, writes[..|writes| - 1]), writes[|writes| - 1].key)
  }

  /** The handler's attribute setter, run over the fields the propagator
      emits, is the non-overwriting run of the writes it accepts. */
  lemma InjectAttributesStep(m: AttributeMap, fields: seq<Field>, i: nat)
    requires i < |fields|
    ensures InjectToMessageAttributes(AddAbsent(m, Accepted(fields[..i], true)), fields[i].key, fields[i].value)
         == AddAbsent(m, Accepted(fields[..i + 1], true))
  {
    AcceptedStep(fields, i, true);
    var ws := Accepted(fields[..i], true);
    match Accept(fields[i], true)
    case None =>
      assert Accepted(fields[..i + 1], true) == ws;
      assert IsBlank(fields[i].value) || IsBlank(Some(fields[i].key));
    case Some(w) =>
      assert (ws + [w])[..|ws|] == ws;
  }

  /** The same for the allow-list setter. */
  lemma InjectNamesStep(names: seq<string>, fields: seq<Field>, i: nat)
    requires i < |fields|
    ensures InjectToMessageAttributeNames(AddNames(names, Accepted(fields[..i], true)), fields[i].key, fields[i].value)
         == AddNames(names, Accepted(fields[..i + 1], true))
  {
    AcceptedStep(fields, i, true);
    var ws := Accepted(fields[..i], true);
    match Accept(fields[i], true)
    case None =>
      assert Accepted(fields[..i + 1], true) == ws;
      assert IsBlank(fields[i].value) || IsBlank(Some(fields[i].key));
    case Some(w) =>
      assert (ws + [w])[..|ws|] == ws;
  }

  /** What a run of SQS attribute writes leaves under each key: an existing
      attribute is kept as it was, a new key holds the first value written
      for it, typed "String", and no other key appears. */
  lemma {:induction false} AddAbsentAt(m: AttributeMap, writes: seq<Write>, k: string)
    ensures k in AddAbsent(m, writes) <==> k in m || FirstValue(writes, k).Some?
    ensures k in m ==> AddAbsent(m, writes)[k] == m[k]
    ensures k !in m && FirstValue(writes, k).Some? ==>
              AddAbsent(m, writes)[k] == StringAttribute(FirstValue(writes, k).value)
  {
    if writes != [] {
      AddAbsentAt(m, writes[..|writes| - 1], k);
    }
  }

  /** Injecting the same context twice leaves the attributes as one injection did. */
  lemma AddAbsentIdempotent(m: AttributeMap, writes: seq<Write>)
    ensures AddAbsent(AddAbsent(m, writes), writes) == AddAbsent(m, writes)
  {
    var once := AddAbsent(m, writes);
    var twice := AddAbsent(once, writes);
    forall k
      ensures k in twice <==> k in once
      ensures k in once ==> twice[k] == once[k]
    {
      AddAbsentAt(m, writes, k);
      AddAbsentAt(once, writes, k);
    }
  }

  /** An allow-list run only appends, at most one name per write; with
      `"All"` present it changes nothing; afterwards every written key is
      asked for, or `"All"` is. */
  lemma {:induction false} AddNamesShape(names: seq<string>, writes: seq<Write>)
    ensures names <= AddNames(names, writes)
    ensures |AddNames(names, writes)| <= |names| + |writes|
    ensures AllAttributes in names ==> AddNames(names, writes) == names
    ensures AllAttributes in AddNames(names, writes) ||
            forall w | w in writes :: w.key in AddNames(names, writes)
    ensures forall n | n in AddNames(names, writes)[|names|..] :: exists w | w in writes :: w.key == n
  {
    if writes != [] {
      var front, last := writes[..|writes| - 1], writes[|writes| - 1];
      AddNamesShape(names, front);
      var before := AddNames(names, front);
      var after := AddNames(names, writes);
      assert forall w | w in writes :: w in front || w == last;
      assert forall w | w in front :: w in writes;
      assert before <= after;
      assert after == before || after == before + [last.key];
      forall n | n in after[|names|..]
        ensures exists w | w in writes :: w.key == n
      {
        if n in before[|names|..] {
          var w :| w in front && w.key == n;
          assert w in writes;
        } else {
          assert after == before + [last.key];
          assert after[|names|..] == before[|names|..] + [last.key];
          assert n == last.key;
          assert last in writes;
        }
      }
    }
  }

  predicate NoDuplicates(s: seq<string>) {
    forall i, j | 0 <= i < j < |s| :: s[i] != s[j]
  }

  /** An allow-list without repeated names keeps none after a run. */
  lemma {:induction false} AddNamesNoDuplicates(names: seq<string>, writes: seq<Write>)
    requires NoDuplicates(names)
    ensures NoDuplicates(AddNames(names, writes))
  {
    if writes != [] {
      AddNamesNoDuplicates(names, writes[..|writes| - 1]);
    }
  }

  /** A run whose keys are all asked for already, or that meets `"All"`, is a no-op. */
  lemma {:induction false} AddNamesNoOp(names: seq<string>, writes: seq<Write>)
    requires AllAttributes in names || forall w | w in writes :: w.key in names
    ensures AddNames(names, writes) == names
  {
    if writes != [] {
      var front := writes[..|writes| - 1];
      assert forall w | w in front :: w in writes;
      AddNamesNoOp(names, front);
    }
  }

  /** Injecting the same context twice into an allow-list equals injecting it once. */
  lemma AddNamesIdempotent(names: seq<string>, writes: seq<Write>)
    ensures AddNames(AddNames(names, writes), writes) == AddNames(names, writes)
  {
    AddNamesShape(names, writes);
    AddNamesNoOp(AddNames(names, writes), writes);
  }

  /** `TryAdd` on attributes, applied twice with the same key and value, equals one call. */
  lemma TryAddAttributeIdempotent(m: AttributeMap, key: string, value: Option<string>)
    ensures TryAddAttribute(TryAddAttribute(m, key, value), key, value) == TryAddAttribute(m, key, value)
  {
  }

  /** `TryAdd` on an allow-list, applied twice with the same key, equals one call. */
  lemma TryAddNameIdempotent(names: seq<string>, key: string)
    ensures TryAddName(TryAddName(names, key), key) == TryAddName(names, key)
  {
  }

  /** `TryAdd(IRequest, key, value)`: sets the header, overwriting, unless the
      request is null or the value blank. */
  method TryAddHeader(request: HttpRequest?, key: string, value: Option<string>)
    modifies request
    ensures request != null && !IsBlank(value) ==> request.headers == old(request.headers)[key := value.value]
    ensures request != null && IsBlank(value) ==> request.headers == old(request.headers)
  {
    if request == null || IsBlank(value) {
      return;
    }
    request.headers := request.headers[key := value.value];
  }

  /** `TryAdd(SendMessageRequest, key, value)`: creates a missing map even
      when nothing is added. */
  method TryAddSendMessage(request: SendMessageRequest, key: string, value: Option<string>)
    modifies request
    ensures request.messageAttributes == Some(TryAddAttribute(old(request.messageAttributes).GetOr(map[]), key, value))
  {
    if request.messageAttributes.None? {
      request.messageAttributes := Some(map[]);
    }
    if !IsBlank(value) && key !in request.messageAttributes.value {
      request.messageAttributes := Some(request.messageAttributes.value[key := StringAttribute(value.value)]);
    }
  }

  /** `TryAdd(SendMessageBatchRequestEntry, key, value)`: the same rule for one batch entry. */
  method TryAddBatchEntry(entry: SendMessageBatchRequestEntry, key: string, value: Option<string>)
    modifies entry
    ensures entry.messageAttributes == Some(TryAddAttribute(old(entry.messageAttributes).GetOr(map[]), key, value))
  {
    if entry.messageAttributes.None? {
      entry.messageAttributes := Some(map[]);
    }
    if !IsBlank(value) && key !in entry.messageAttributes.value {
      entry.messageAttributes := Some(entry.messageAttributes.value[key := StringAttribute(value.value)]);
    }
  }

  /** `TryAdd(ReceiveMessageRequest, key)`: creates a missing allow-list and asks for `key`. */
  method TryAddReceiveMessage(request: ReceiveMessageRequest, key: string)
    modifies request
    ensures request.messageAttributeNames == Some(TryAddName(old(request.messageAttributeNames).GetOr([]), key))
  {
    if request.messageAttributeNames.None? {
      request.messageAttributeNames := Some([]);
    }
    var names := request.messageAttributeNames.value;
    if key !in names && AllAttributes !in names {
      request.messageAttributeNames := Some(names + [key]);
    }
  }
}
