/** Building a row from resolved options, and the library's own record inside a job's metadata.

A JSON document is its members; a member's text is opaque, except for what decoding it as the library's
record yields.
*/
module Options {
  import opened Instants
  import opened Rows
  import opened Executor
  import opened Runs

  datatype Envelope = Envelope(timeoutMs: int, snoozes: int)

  const NO_ENVELOPE := Envelope(0, 0)

  datatype Key = Goque | Other(name: string)

  datatype Json = Json(text: string, env: Envelope)

  type Members = map<Key, Json>

  /** The bytes of a metadata column. The document null is not an object, but decodes without an error. */
  datatype Bytes = Absent | Malformed | Null | Object(members: Members)

  /** The members, and what the reserved one says. Bytes that do not decode are no members. */
  function DecodeMeta(b: Bytes): (Members, Envelope) {
    if !b.Object? then (map[], NO_ENVELOPE)
    else (b.members, if Goque in b.members then b.members[Goque].env else NO_ENVELOPE)
  }

  function EncodeMeta(m: Members, env: Envelope): Bytes {
    Object(m[Goque := Json("", env)])
  }

  lemma EncodedDecodes(m: Members, env: Envelope)
    ensures DecodeMeta(EncodeMeta(m, env)).1 == env
    ensures forall k: Key :: k != Goque ==>
      var back := DecodeMeta(EncodeMeta(m, env)).0;
      (k in back <==> k in m) && (k in m ==> back[k] == m[k])
  {
  }

  /** Duration.Milliseconds truncates toward zero. */
  function Milliseconds(d: Duration): int {
    if d >= 0 then d / 1_000_000 else -((-(d as int)) / 1_000_000)
  }

  function SetEnvelope(b: Bytes, timeout: Duration): Bytes {
    var (m, env) := DecodeMeta(b);
    EncodeMeta(m, env.(timeoutMs := Milliseconds(timeout)))
  }

  /** The timeout the executor applies, if any. */
  function EnvelopeTimeout(b: Bytes): Option<Duration> {
    var ms := DecodeMeta(b).1.timeoutMs;
    if ms == 0 then None else Some(Wrap64(ms * 1_000_000))
  }

  /** A timeout reaches the executor unchanged exactly when it is a whole number of milliseconds, none at
      all included; one shorter than a millisecond is lost, and the job runs without any. */
  lemma TimeoutsInWholeMilliseconds(b: Bytes, timeout: Duration)
    ensures EnvelopeTimeout(SetEnvelope(b, timeout)) == (if timeout == 0 then None else Some(timeout))
      <==> timeout % 1_000_000 == 0
    ensures EnvelopeTimeout(SetEnvelope(b, timeout)).None? <==> -1_000_000 < timeout < 1_000_000
    ensures EnvelopeTimeout(SetEnvelope(b, timeout)).Some? ==>
      var applied := EnvelopeTimeout(SetEnvelope(b, timeout)).value;
      if timeout > 0 then 0 < applied <= timeout < applied + 1_000_000 else timeout <= applied < 0
  {
    var ms := Milliseconds(timeout);
    assert DecodeMeta(SetEnvelope(b, timeout)).1.timeoutMs == ms;
    assert Wrap64(ms * 1_000_000) == ms * 1_000_000;
  }

  function Bumped(b: Bytes): Bytes {
    var (m, env) := DecodeMeta(b);
    EncodeMeta(m, env.(snoozes := env.snoozes + 1))
  }

  /** The record as later proofs use it: the rest of the document is opaque to them. */
  ghost predicate Summarizes(m: Metadata, b: Bytes) {
    match b
    case Absent => m == NoMetadata
    case Object(_) => m.Metadata? && DecodeMeta(b).1 == Envelope(m.timeoutMs, m.snoozes)
    case _ => false
  }

  /** Bumping the document is bumping the record. */
  lemma BumpingCommutes(m: Metadata, b: Bytes)
    requires Summarizes(m, b)
    ensures Summarizes(BumpSnoozes(m), Bumped(b))
  {
  }

  function BumpedTimes(b: Bytes, n: nat): Bytes {
    if n == 0 then b else Bumped(BumpedTimes(b, n - 1))
  }

  /** However often a job is snoozed, its timeout and everything that is not the library's stays. */
  lemma {:induction false} SnoozesAddUp(b: Bytes, n: nat)
    requires b.Object?
    ensures var after := BumpedTimes(b, n);
      && after.Object?
      && DecodeMeta(after).1.snoozes == DecodeMeta(b).1.snoozes + n
      && EnvelopeTimeout(after) == EnvelopeTimeout(b)
      && forall k: Key :: k != Goque ==>
           (k in after.members <==> k in b.members) && (k in b.members ==> after.members[k] == b.members[k])
  {
    if n > 0 { SnoozesAddUp(b, n - 1); }
  }

  // ---------- Rows ----------

  /** The options of one job after defaults, kind and call have been overlaid. */
  datatype Resolved = Resolved(
    queue: string, priorityBoost: Duration, maxAttempts: int, timeout: Duration, scheduledAt: Instant, delay: Duration,
    metadata: Bytes)

  datatype Built =
    | Built(row: Row)
    | ConflictingOptions | PayloadNotEncodable | PolicyNotEncodable | InvalidMetadata
    | Panics

  /** The payload is None when the arguments do not encode; policyEncodes tells whether the retry policy
      does. The document null passes for valid, and then has no map to write the library's record to. */
  function BuildRow(
      kind: string, payload: Option<string>, policyEncodes: bool, o: Resolved, user: string, now: Instant): Built
  {
    if o.delay != 0 && o.scheduledAt != ZERO_TIME then ConflictingOptions
    else if payload.None? then PayloadNotEncodable
    else if !policyEncodes then PolicyNotEncodable
    else if o.metadata.Malformed? then InvalidMetadata
    else if o.metadata.Null? then Panics
    else
      var at := if o.delay != 0 then now + o.delay else if o.scheduledAt != ZERO_TIME then o.scheduledAt else now;
      var env := DecodeMeta(SetEnvelope(o.metadata, o.timeout)).1;
      Built(Row(JobId(0), kind, o.queue, payload.value, Scheduled, o.priorityBoost, ZERO_TIME, 0, 0, o.maxAttempts,
        ZERO_TIME, at, ZERO_TIME, ZERO_TIME, ZERO_TIME, [], false, Metadata(user, env.timeoutMs, env.snoozes), []))
  }

  /** A row is built exactly when payload and policy encode, the options do not conflict and the metadata is
      absent or an object; every built row is one that the proofs about runs start from, carries what its caller
      asked for, and is scheduled for the time asked for, for as much later, or for now. */
  lemma BuiltRows(kind: string, payload: Option<string>, policyEncodes: bool, o: Resolved, user: string, now: Instant)
    ensures var built := BuildRow(kind, payload, policyEncodes, o, user, now);
      && (built.Built? <==>
            && (o.delay == 0 || o.scheduledAt == ZERO_TIME) && payload.Some? && policyEncodes
            && (o.metadata.Absent? || o.metadata.Object?))
      && (built.Built? ==> ClientBuilt(built.row) && Summarizes(built.row.metadata, SetEnvelope(o.metadata, o.timeout)))
      && (built.Built? ==> SnoozeCount(built.row.metadata) == DecodeMeta(o.metadata).1.snoozes)
      && (built.Built? && (o.metadata.Object? ==> Goque !in o.metadata.members) ==>
            built.row.metadata.snoozes == 0)
      && (built.Built? ==>
            && (o.delay != 0 ==> built.row.scheduledAt - now == o.delay)
            && (o.scheduledAt != ZERO_TIME ==> built.row.scheduledAt == o.scheduledAt)
            && (o.delay == 0 && o.scheduledAt == ZERO_TIME ==> built.row.scheduledAt == now)
            && built.row.metadata.user == user && payload == Some(built.row.payload)
            && built.row.kind == kind && built.row.queue == o.queue
            && built.row.priorityBoost == o.priorityBoost && built.row.maxAttempts == o.maxAttempts)
  {
  }
}
