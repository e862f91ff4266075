/** English Forge persistence as its callers see it: three plain maps that never fail.
    This is the specification that `ForgeStore` refines and that `ForgeService` runs on. */
module PlainStore {
  import opened Wrappers

  /** A stringified UUID. */
  type Key = string

  /** The columns the code reads or writes by name; the rest are `Other`. */
  datatype Field =
    | Id | SessionId | CreatedAt | UpdatedAt
    | Status | TranscriptionStatus | Transcript | CoachCard
    | ResponseId | IdempotencyKey | DurationSec | Problem
    | Other(name: string)

  /** Values of every `status` and `transcription_status` column. */
  datatype Tag =
    | Active | Finalized | PendingUpload | Confirmed
    | NotQueued | Queued | Pending | Processing
    | Completed | Stubbed | Failed

  /** A coach card, with the transcript the evaluator was given. */
  datatype Card = Card(heard: string, verdict: string)

  datatype Value =
    | Null
    | Text(text: string)
    | Number(number: int)
    | Stamp(at: nat)
    | Label(tag: Tag)
    | Coach(card: Card)

  type Row = map<Field, Value>

  /** Sessions and responses by id; evaluations by session, without `created_at`. */
  datatype Plain = Plain(
    sessions: map<Key, Row>,
    responses: map<Key, Row>,
    evaluations: map<Key, Row>)

  const EMPTY := Plain(map[], map[], map[])

  /** A patch leaves alone the columns that identify and order rows. */
  predicate IsPatch(patch: Row) {
    Id !in patch && SessionId !in patch && CreatedAt !in patch && IdempotencyKey !in patch
  }

  function NewRow(row: Row, id: Key, now: nat): (r: Row)
    ensures Id in r && r[Id] == Text(id)
  {
    row[Id := Text(id)][CreatedAt := Stamp(now)][UpdatedAt := Stamp(now + 1)]
  }

  function Touched(patch: Row, now: nat): Row {
    patch[UpdatedAt := Stamp(now)]
  }

  function Lookup(table: map<Key, Row>, key: Key): Option<Row> {
    if key in table then Some(table[key]) else None
  }

  function Patched(table: map<Key, Row>, key: Key, patch: Row): map<Key, Row> {
    if key in table then table[key := table[key] + patch] else table
  }

  function CreateSession(p: Plain, row: Row, id: Key, now: nat): Plain {
    p.(sessions := p.sessions[id := NewRow(row, id, now)])
  }

  function UpdateSession(p: Plain, sid: Key, patch: Row, now: nat): Plain {
    p.(sessions := Patched(p.sessions, sid, Touched(patch, now)))
  }

  function CreateResponse(p: Plain, row: Row, id: Key, now: nat): Plain {
    p.(responses := p.responses[id := NewRow(row, id, now)])
  }

  function UpdateResponse(p: Plain, rid: Key, patch: Row, now: nat): Plain {
    p.(responses := Patched(p.responses, rid, Touched(patch, now)))
  }

  function EvaluationPatch(sid: Key, row: Row, now: nat): Row {
    row[SessionId := Text(sid)][UpdatedAt := Stamp(now)]
  }

  /** The row a session's evaluation becomes; `id` is used only for the first one. */
  function NextEvaluation(evaluations: map<Key, Row>, sid: Key, patch: Row, id: Key): Row {
    if sid in evaluations then evaluations[sid] + patch else patch[Id := Text(id)]
  }

  function UpsertEvaluation(p: Plain, sid: Key, row: Row, id: Key, now: nat): Plain {
    p.(evaluations := p.evaluations[sid := NextEvaluation(p.evaluations, sid, EvaluationPatch(sid, row, now), id)])
  }

  predicate OfSession(row: Row, sid: Key) {
    SessionId in row && row[SessionId] == Text(sid)
  }

  /** The row's own id. */
  function IdOf(row: Row): Key {
    if Id in row && row[Id].Text? then row[Id].text else ""
  }

  /** No evaluation carries this id yet, as a new UUID promises. */
  ghost predicate IsNewEvaluationId(p: Plain, id: Key) {
    forall sid :: sid in p.evaluations ==> IdOf(p.evaluations[sid]) != id
  }

  function CreatedOf(row: Row): nat {
    if CreatedAt in row && row[CreatedAt].Stamp? then row[CreatedAt].at else 0
  }

  /** `rid` is the session's most recently created response. */
  predicate IsLatest(responses: map<Key, Row>, sid: Key, rid: Key) {
    && rid in responses
    && OfSession(responses[rid], sid)
    && forall other :: other in responses && OfSession(responses[other], sid) ==>
         CreatedOf(responses[other]) <= CreatedOf(responses[rid])
  }

  /** What `get_latest_response` may return. */
  ghost predicate IsLatestRow(responses: map<Key, Row>, sid: Key, r: Option<Row>) {
    match r
    case None => forall rid :: rid in responses ==> !OfSession(responses[rid], sid)
    case Some(row) => exists rid :: IsLatest(responses, sid, rid) && responses[rid] == row
  }

  /** Responses carry distinct creation stamps, all read from the clock before `now`. */
  ghost predicate Ordered(responses: map<Key, Row>, now: nat) {
    && (forall rid :: rid in responses ==> CreatedOf(responses[rid]) < now)
    && (forall a, b :: a in responses && b in responses && a != b ==>
          CreatedOf(responses[a]) != CreatedOf(responses[b]))
  }

  /** Distinct creation stamps leave `get_latest_response` no choice. */
  lemma LatestIsUnique(responses: map<Key, Row>, sid: Key, now: nat, a: Option<Row>, b: Option<Row>)
    requires Ordered(responses, now)
    requires IsLatestRow(responses, sid, a) && IsLatestRow(responses, sid, b)
    ensures a == b
  {
  }

  /** `get_latest_response`. */
  ghost function Latest(responses: map<Key, Row>, sid: Key): Option<Row> {
    if exists rid :: IsLatest(responses, sid, rid) then
      var rid :| IsLatest(responses, sid, rid); Some(responses[rid])
    else
      None
  }

  lemma LatestIsIt(responses: map<Key, Row>, sid: Key, now: nat, r: Option<Row>)
    requires Ordered(responses, now) && IsLatestRow(responses, sid, r)
    ensures r == Latest(responses, sid)
  {
    LatestIsUnique(responses, sid, now, r, Latest(responses, sid));
  }

  /** A store call. `now` is the clock reading at which it starts; each further reading
      inside the same call is one later. */
  datatype Call =
    | PostSession(row: Row, id: Key, now: nat)
    | ReadSession(id: Key)
    | PatchSession(id: Key, patch: Row, now: nat)
    | PostResponse(row: Row, id: Key, now: nat)
    | ReadResponse(id: Key)
    | ReadLatest(sid: Key)
    | PatchResponse(id: Key, patch: Row, now: nat)
    | PutEvaluation(sid: Key, patch: Row, id: Key, now: nat)
    | ReadEvaluation(sid: Key)

  ghost function After(p: Plain, call: Call): Plain {
    match call
    case PostSession(row, id, now) => CreateSession(p, row, id, now)
    case PatchSession(id, patch, now) => UpdateSession(p, id, patch, now)
    case PostResponse(row, id, now) => CreateResponse(p, row, id, now)
    case PatchResponse(id, patch, now) => UpdateResponse(p, id, patch, now)
    case PutEvaluation(sid, patch, id, now) => UpsertEvaluation(p, sid, patch, id, now)
    case _ => p
  }

  ghost function Answer(p: Plain, call: Call): Option<Row> {
    var p' := After(p, call);
    match call
    case PostSession(_, id, _) => Lookup(p'.sessions, id)
    case ReadSession(id) => Lookup(p'.sessions, id)
    case PatchSession(id, _, _) => Lookup(p'.sessions, id)
    case PostResponse(_, id, _) => Lookup(p'.responses, id)
    case ReadResponse(id) => Lookup(p'.responses, id)
    case ReadLatest(sid) => Latest(p'.responses, sid)
    case PatchResponse(id, _, _) => Lookup(p'.responses, id)
    case PutEvaluation(sid, _, _, _) => Lookup(p'.evaluations, sid)
    case ReadEvaluation(sid) => Lookup(p'.evaluations, sid)
  }

  /** What one plain in-memory map answers to each call in turn. */
  ghost function Answers(p: Plain, calls: seq<Call>): (answers: seq<Option<Row>>)
    ensures |answers| == |calls|
    decreases |calls|
  {
    if calls == [] then [] else [Answer(p, calls[0])] + Answers(After(p, calls[0]), calls[1..])
  }

  function NextClock(clock: nat, call: Call): nat {
    match call
    case ReadSession(_) => clock
    case ReadResponse(_) => clock
    case ReadLatest(_) => clock
    case ReadEvaluation(_) => clock
    case _ => call.now + 3
  }

  /** What the callers of one call promise: the clock moves forward, new ids are new, and
      patches stay off the identifying columns. */
  ghost predicate IsCall(p: Plain, call: Call, clock: nat) {
    match call
    case PostSession(_, id, now) => clock <= now && id !in p.sessions
    case PatchSession(_, patch, now) => clock <= now && IsPatch(patch)
    case PostResponse(_, id, now) => clock <= now && id !in p.responses
    case PatchResponse(_, patch, now) => clock <= now && IsPatch(patch)
    case PutEvaluation(_, patch, id, now) => clock <= now && IsPatch(patch) && IsNewEvaluationId(p, id)
    case _ => true
  }

  ghost predicate AreCalls(p: Plain, calls: seq<Call>, clock: nat)
    decreases |calls|
  {
    calls == [] ||
    (IsCall(p, calls[0], clock) && AreCalls(After(p, calls[0]), calls[1..], NextClock(clock, calls[0])))
  }

  /** The rows that a call names are stored, as the foreign keys of the schema demand. */
  predicate NamesStored(p: Plain, call: Call) {
    match call
    case PostResponse(row, _, _) => SessionId in row && row[SessionId].Text? && row[SessionId].text in p.sessions
    case PutEvaluation(sid, patch, _, _) =>
      && sid in p.sessions
      && (ResponseId in patch ==> patch[ResponseId].Text? && patch[ResponseId].text in p.responses)
    case _ => true
  }

  /** The two rows agree in both columns of the unique index on responses. */
  predicate SameKey(a: Row, b: Row) {
    && SessionId in a && SessionId in b && a[SessionId] == b[SessionId]
    && IdempotencyKey in a && IdempotencyKey in b && a[IdempotencyKey] == b[IdempotencyKey]
  }

  /** A stored response has the session and the idempotency key of the new one. */
  predicate IsTaken(responses: map<Key, Row>, row: Row) {
    exists rid :: rid in responses && SameKey(responses[rid], row)
  }

  predicate RepeatsKey(p: Plain, call: Call) {
    call.PostResponse? && IsTaken(p.responses, call.row)
  }

  /** A call that violates no constraint between rows of the schema. */
  predicate IsLegal(p: Plain, call: Call) {
    NamesStored(p, call) && !RepeatsKey(p, call)
  }

  ghost predicate AreLegal(p: Plain, calls: seq<Call>)
    decreases |calls|
  {
    calls == [] || (IsLegal(p, calls[0]) && AreLegal(After(p, calls[0]), calls[1..]))
  }

  ghost function AfterAll(p: Plain, calls: seq<Call>): Plain
    decreases |calls|
  {
    if calls == [] then p else AfterAll(After(p, calls[0]), calls[1..])
  }

  function ClockAfter(clock: nat, calls: seq<Call>): nat
    decreases |calls|
  {
    if calls == [] then clock else ClockAfter(NextClock(clock, calls[0]), calls[1..])
  }

  lemma NothingIsOrdered()
    ensures Ordered(EMPTY.responses, 0)
  {
  }

  /** Every call keeps responses in order of creation. */
  lemma CallKeepsOrder(p: Plain, call: Call, clock: nat)
    requires IsCall(p, call, clock) && Ordered(p.responses, clock)
    ensures Ordered(After(p, call).responses, NextClock(clock, call))
  {
  }
}
