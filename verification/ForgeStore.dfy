/** english_forge/store.py: a database mirrored into memory, and memory alone once the
    database stops answering. */
module ForgeStore {
  import opened Wrappers
  import opened PlainStore

  /** How one database request that the database does not refuse ends.
      `Returned`: the request is applied and its rows come back.
      `Quiet`: a write is applied, but no row comes back; a read comes back empty.
      `Lost`: no client, or the request raised; `applied` says whether a write took effect. */
  datatype Reply = Returned | Quiet | Lost(applied: bool)

  /** How the requests of one call end, in order. */
  datatype Net = Net(first: Reply, second: Reply)

  /** The database answers up to some request and never again, and the lookup of an upsert
      tells the truth. */
  predicate OneFailover(calls: seq<Call>, nets: seq<Net>)
    requires |calls| == |nets|
  {
    && (forall i :: 0 <= i < |nets| && nets[i].first.Lost? ==> nets[i].second.Lost?)
    && (forall i, j :: 0 <= i < j < |nets| && nets[i].second.Lost? ==> nets[j].first.Lost?)
    && (forall i :: 0 <= i < |nets| && calls[i].PutEvaluation? ==> !nets[i].first.Quiet?)
  }

  /** Every call names stored rows, and no repeated idempotency key reaches the database while it
      answers. */
  ghost predicate AreAccepted(p: Plain, calls: seq<Call>, nets: seq<Net>)
    requires |calls| == |nets|
    decreases |calls|
  {
    calls == [] ||
    (&& NamesStored(p, calls[0]) && (nets[0].first.Lost? || !RepeatsKey(p, calls[0]))
     && AreAccepted(After(p, calls[0]), calls[1..], nets[1..]))
  }

  lemma {:induction false} LegalIsAccepted(p: Plain, calls: seq<Call>, nets: seq<Net>)
    requires |calls| == |nets| && AreLegal(p, calls)
    ensures AreAccepted(p, calls, nets)
    decreases |calls|
  {
    hide After;
    if calls != [] {
      LegalIsAccepted(After(p, calls[0]), calls[1..], nets[1..]);
    }
  }

  /** The row without its creation stamp. */
  function Bare(row: Row): Row { row - {CreatedAt} }

  lemma BareKeepsTheRest(row: Row, f: Field)
    ensures f in Bare(row) <==> f in row && f != CreatedAt
    ensures f in Bare(row) ==> Bare(row)[f] == row[f]
  {
  }

  function BareOption(r: Option<Row>): Option<Row> {
    match r case None => None case Some(row) => Some(Bare(row))
  }

  /** `table`, keyed by evaluation id, holds exactly the evaluations of `bySession`. */
  ghost predicate SameEvaluations(table: map<Key, Row>, bySession: map<Key, Row>) {
    && (forall e :: e in table ==> Matches(table[e], e, bySession))
    && (forall sid :: sid in bySession ==> IdOf(bySession[sid]) in table
                                           && OfSession(table[IdOf(bySession[sid])], sid))
  }

  /** `row` is, under its id `e`, the evaluation of its session. */
  ghost predicate Matches(row: Row, e: Key, bySession: map<Key, Row>) {
    && SessionId in row && row[SessionId].Text?
    && row[SessionId].text in bySession
    && Bare(row) == bySession[row[SessionId].text]
    && Id in row && row[Id] == Text(e)
  }

  /** The table's rows for a session are exactly the one its evaluation names. */
  lemma FoundIsIt(table: map<Key, Row>, bySession: map<Key, Row>, sid: Key)
    requires SameEvaluations(table, bySession)
    ensures sid in bySession <==> exists e :: e in table && OfSession(table[e], sid)
    ensures forall e :: e in table && OfSession(table[e], sid) ==>
                          && sid in bySession && e == IdOf(bySession[sid]) && Bare(table[e]) == bySession[sid]
                          && Id in table[e] && table[e][Id] == Text(e)
  {
  }

  lemma IdsAreKeys(table: map<Key, Row>, bySession: map<Key, Row>)
    requires SameEvaluations(table, bySession)
    ensures forall e :: e in table ==> exists sid :: sid in bySession && IdOf(bySession[sid]) == e
  {
  }

  /** Storing a session's evaluation under its one id keeps the table exact. */
  lemma StoredIsIt(table: map<Key, Row>, bySession: map<Key, Row>, sid: Key, e: Key, row: Row)
    requires SameEvaluations(table, bySession)
    requires if sid in bySession then e == IdOf(bySession[sid]) else e !in table
    requires OfSession(row, sid) && Id in row && row[Id] == Text(e)
    ensures SameEvaluations(table[e := row], bySession[sid := Bare(row)])
  {
  }

  /** Merging a patch into a stored evaluation is merging it into the bare one. */
  lemma BareMerge(row: Row, patch: Row)
    requires CreatedAt !in patch
    ensures Bare(row + patch) == Bare(row) + patch
  {
  }

  /** `ready` is the patch, perhaps with the row's own id, and for a new row a creation stamp. */
  ghost predicate IsReady(ready: Row, patch: Row, evaluations: map<Key, Row>, sid: Key, id: Key) {
    if sid in evaluations then
      ready == patch || ready == patch[Id := Text(IdOf(evaluations[sid]))]
    else
      ready == patch ||
      (CreatedAt in ready && ready == patch[Id := Text(id)][CreatedAt := ready[CreatedAt]])
  }

  lemma NewRowKeepsKey(responses: map<Key, Row>, row: Row, id: Key, now: nat)
    ensures IsTaken(responses, NewRow(row, id, now)) == IsTaken(responses, row)
  {
  }

  /** The remote tables. */
  class Database {
    var sessions: map<Key, Row>
    var responses: map<Key, Row>
    var evaluations: map<Key, Row>

    constructor ()
      ensures sessions == map[] && responses == map[] && evaluations == map[]
    {
      sessions, responses, evaluations := map[], map[], map[];
    }
  }

  class ForgeStore {
    const db: Database
    var sessions: map<Key, Row>
    var responses: map<Key, Row>
    var evaluations: map<Key, Row>
    /** Some request has been lost; the database never answers again. */
    ghost var down: bool
    /** Every clock reading so far is below this. */
    ghost var clock: nat
    /** What the callers see. */
    ghost var plain: Plain

    /** Memory always equals what the callers see, and so does the database while it answers. */
    ghost predicate Valid()
      reads this, db
    {
      && sessions == plain.sessions
      && responses == plain.responses
      && SameEvaluations(evaluations, plain.evaluations)
      && (!down ==>
            && db.sessions == plain.sessions
            && db.responses == plain.responses
            && SameEvaluations(db.evaluations, plain.evaluations))
    }

    /** One failover: a lost request is followed by lost requests only. */
    ghost predicate MayHear(reply: Reply)
      reads this
    {
      down ==> reply.Lost?
    }

    constructor ()
      ensures Valid() && fresh(db) && !down && clock == 0 && plain == EMPTY
    {
      db := new Database();
      sessions, responses, evaluations := map[], map[], map[];
      down, clock, plain := false, 0, EMPTY;
    }

    method CreateSession(row: Row, id: Key, now: nat, reply: Reply) returns (r: Row)
      requires Valid() && clock <= now && MayHear(reply)
      requires id !in plain.sessions
      modifies this, db
      ensures Valid() && clock == now + 3 && down == (old(down) || reply.Lost?)
      ensures plain == PlainStore.CreateSession(old(plain), row, id, now)
      ensures r == plain.sessions[id]
    {
      var payload := NewRow(row, id, now);
      if !reply.Lost? || reply.applied {
        db.sessions := db.sessions[id := payload];
      }
      down, clock := down || reply.Lost?, now + 3;
      plain := PlainStore.CreateSession(plain, row, id, now);
      r := if reply.Returned? then db.sessions[id] else payload;
      sessions := sessions[id := r];
    }

    method GetSession(sid: Key, reply: Reply) returns (r: Option<Row>)
      requires Valid() && MayHear(reply)
      modifies this
      ensures Valid() && clock == old(clock) && down == (old(down) || reply.Lost?)
      ensures plain == old(plain)
      ensures r == Lookup(plain.sessions, sid)
    {
      down := down || reply.Lost?;
      if reply.Returned? && sid in db.sessions {
        sessions := sessions[sid := db.sessions[sid]];
        return Some(db.sessions[sid]);
      }
      return Lookup(sessions, sid);
    }

    method UpdateSession(sid: Key, patch: Row, now: nat, reply: Reply) returns (r: Option<Row>)
      requires Valid() && clock <= now && MayHear(reply)
      requires IsPatch(patch)
      modifies this, db
      ensures Valid() && clock == now + 3 && down == (old(down) || reply.Lost?)
      ensures plain == PlainStore.UpdateSession(old(plain), sid, patch, now)
      ensures r == Lookup(plain.sessions, sid)
    {
      hide SameEvaluations, Touched;
      var touched := Touched(patch, now);
      if !reply.Lost? || reply.applied {
        db.sessions := Patched(db.sessions, sid, touched);
      }
      down, clock := down || reply.Lost?, now + 3;
      plain := PlainStore.UpdateSession(plain, sid, patch, now);
      assert !down ==> db.sessions == plain.sessions;
      if reply.Returned? && sid in db.sessions {
        sessions := sessions[sid := db.sessions[sid]];
        return Some(db.sessions[sid]);
      }
      if sid !in sessions {
        return None;
      }
      sessions := sessions[sid := sessions[sid] + touched];
      return Some(sessions[sid]);
    }

    /** The database refuses a second response with the session and the idempotency key of a
        stored one, and goes on answering; the row is then in memory only. */
    method CreateResponse(row: Row, id: Key, now: nat, reply: Reply) returns (r: Row)
      requires Valid() && clock <= now && MayHear(reply)
      requires id !in plain.responses
      modifies this, db
      ensures clock == now + 3 && down == (old(down) || reply.Lost?)
      ensures plain == PlainStore.CreateResponse(old(plain), row, id, now)
      ensures r == plain.responses[id]
      ensures down || !IsTaken(old(plain.responses), row) ==> Valid()
      ensures !down && IsTaken(old(plain.responses), row) ==>
        db.responses == old(plain.responses) && responses == plain.responses
    {
      hide SameEvaluations, IsTaken, NewRow;
      var payload := NewRow(row, id, now);
      NewRowKeepsKey(db.responses, row, id, now);
      var refused := IsTaken(db.responses, payload);
      if (!reply.Lost? || reply.applied) && !refused {
        db.responses := db.responses[id := payload];
      }
      down, clock := down || reply.Lost?, now + 3;
      plain := PlainStore.CreateResponse(plain, row, id, now);
      r := if reply.Returned? && !refused then db.responses[id] else payload;
      responses := responses[id := r];
    }

    method GetResponse(rid: Key, reply: Reply) returns (r: Option<Row>)
      requires Valid() && MayHear(reply)
      modifies this
      ensures Valid() && clock == old(clock) && down == (old(down) || reply.Lost?)
      ensures plain == old(plain)
      ensures r == Lookup(plain.responses, rid)
    {
      down := down || reply.Lost?;
      if reply.Returned? && rid in db.responses {
        responses := responses[rid := db.responses[rid]];
        return Some(db.responses[rid]);
      }
      return Lookup(responses, rid);
    }

    /** Also on a store that holds responses which the database refused. */
    method GetLatestResponse(sid: Key, reply: Reply) returns (r: Option<Row>)
      requires MayHear(reply)
      modifies this
      ensures clock == old(clock) && down == (old(down) || reply.Lost?)
      ensures plain == old(plain)
      ensures old(Valid()) ==> Valid() && IsLatestRow(plain.responses, sid, r)
      ensures reply.Returned? && (exists rid :: rid in db.responses && OfSession(db.responses[rid], sid)) ==>
        r.Some? && IsLatestRow(db.responses, sid, r)
    {
      down := down || reply.Lost?;
      if reply.Returned? {
        var found := Newest(db.responses, sid);
        if found.Some? {
          var row := db.responses[found.value];
          responses := responses[found.value := row];
          return Some(row);
        }
      }
      var found := Newest(responses, sid);
      return if found.None? then None else Some(responses[found.value]);
    }

    method UpdateResponse(rid: Key, patch: Row, now: nat, reply: Reply, reread: Reply) returns (r: Option<Row>)
      requires Valid() && clock <= now && MayHear(reply)
      requires MayHear(reread) && (reply.Lost? ==> reread.Lost?)
      requires IsPatch(patch)
      modifies this, db
      ensures Valid() && clock == now + 3
      ensures down ==> old(down) || reply.Lost? || reread.Lost?
      ensures reply.Lost? ==> down
      ensures plain == PlainStore.UpdateResponse(old(plain), rid, patch, now)
      ensures r == Lookup(plain.responses, rid)
    {
      hide SameEvaluations, Touched;
      var touched := Touched(patch, now);
      if !reply.Lost? || reply.applied {
        db.responses := Patched(db.responses, rid, touched);
      }
      down, clock := down || reply.Lost?, now + 3;
      plain := PlainStore.UpdateResponse(plain, rid, patch, now);
      assert !down ==> db.responses == plain.responses;
      if reply.Returned? && rid in db.responses {
        responses := responses[rid := db.responses[rid]];
        return Some(db.responses[rid]);
      }
      if rid in responses {
        responses := responses[rid := responses[rid] + touched];
        return Some(responses[rid]);
      }
      // Last resort: a row that memory lacks is read again. Memory lacks only what the
      // database lacks, so there is never a row to patch here.
      var existing := GetResponse(rid, reread);
      if existing.None? {
        return None;
      }
      assert false;
    }

    method UpsertEvaluation(sid: Key, row: Row, id: Key, now: nat, lookup: Reply, write: Reply) returns (r: Row)
      requires Valid() && clock <= now && MayHear(lookup) && MayHear(write)
      requires !lookup.Quiet?  // the lookup answers truthfully or is lost
      requires lookup.Lost? ==> write.Lost?
      requires IsPatch(row)
      requires IsNewEvaluationId(plain, id)
      modifies this, db
      ensures Valid() && clock == now + 3 && down == (old(down) || lookup.Lost? || write.Lost?)
      ensures plain == PlainStore.UpsertEvaluation(old(plain), sid, row, id, now)
      ensures Bare(r) == plain.evaluations[sid]
    {
      hide SameEvaluations;
      var payload := EvaluationPatch(sid, row, now);
      db.evaluations, evaluations, r :=
        UpsertBoth(db.evaluations, evaluations, sid, payload, id, now, lookup, write, plain.evaluations);
      clock, down := now + 3, down || lookup.Lost? || write.Lost?;
      plain := PlainStore.UpsertEvaluation(plain, sid, row, id, now);
    }

    method GetEvaluation(sid: Key, reply: Reply) returns (r: Option<Row>)
      requires Valid() && MayHear(reply)
      modifies this
      ensures Valid() && clock == old(clock) && down == (old(down) || reply.Lost?)
      ensures plain == old(plain)
      ensures BareOption(r) == Lookup(plain.evaluations, sid)
    {
      hide SameEvaluations;
      down := down || reply.Lost?;
      if reply.Returned? {
        var found := FindEvaluation(db.evaluations, sid);
        if found.Some? {
          var row := db.evaluations[found.value];
          FoundIsIt(db.evaluations, plain.evaluations, sid);
          StoredIsIt(evaluations, plain.evaluations, sid, found.value, row);
          assert plain.evaluations[sid := Bare(row)] == plain.evaluations;
          evaluations := evaluations[found.value := row];
          return Some(row);
        }
      }
      var found := FindEvaluation(evaluations, sid);
      FoundIsIt(evaluations, plain.evaluations, sid);
      return if found.None? then None else Some(evaluations[found.value]);
    }
  }

  /** The upsert on both copies of the evaluations table. */
  method UpsertBoth(
    remote: map<Key, Row>, local: map<Key, Row>, sid: Key, payload: Row, id: Key, now: nat,
    lookup: Reply, write: Reply, ghost was: map<Key, Row>)
    returns (remote': map<Key, Row>, local': map<Key, Row>, r: Row)
    requires !lookup.Quiet? && (lookup.Lost? ==> write.Lost?)
    requires lookup.Returned? ==> SameEvaluations(remote, was)
    requires SameEvaluations(local, was)
    requires OfSession(payload, sid) && Id !in payload && CreatedAt !in payload
    requires forall s :: s in was ==> IdOf(was[s]) != id
    ensures !write.Lost? ==> SameEvaluations(remote', was[sid := NextEvaluation(was, sid, payload, id)])
    ensures SameEvaluations(local', was[sid := NextEvaluation(was, sid, payload, id)])
    ensures Bare(r) == NextEvaluation(was, sid, payload, id)
  {
    hide SameEvaluations;
    var answer, ready;
    remote', answer, ready := UpsertRemote(remote, sid, payload, id, now, lookup, write, was);
    if answer.Some? {
      r := answer.value;
      IdsAreKeys(local, was);
      StoredIsIt(local, was, sid, IdOf(r), r);
      local' := local[IdOf(r) := r];
    } else {
      local', r := UpsertLocal(local, sid, ready, id, now, was, payload);
    }
  }

  /** The database half of the upsert: look the session up, then update or insert.
      Without an answer, `ready` is the payload that memory must still take. */
  method UpsertRemote(
    table: map<Key, Row>, sid: Key, payload: Row, id: Key, now: nat, lookup: Reply, write: Reply,
    ghost was: map<Key, Row>)
    returns (table': map<Key, Row>, answer: Option<Row>, ready: Row)
    requires !lookup.Quiet? && (lookup.Lost? ==> write.Lost?)
    requires lookup.Returned? ==> SameEvaluations(table, was)
    requires OfSession(payload, sid) && Id !in payload && CreatedAt !in payload
    requires forall s :: s in was ==> IdOf(was[s]) != id
    ensures !write.Lost? ==>
              SameEvaluations(table', was[sid := NextEvaluation(was, sid, payload, id)])
    ensures answer.Some? <==> write.Returned?
    ensures answer.Some? ==>
              && Bare(answer.value) == NextEvaluation(was, sid, payload, id)
              && OfSession(answer.value, sid)
              && Id in answer.value
              && answer.value[Id] == Text(if sid in was then IdOf(was[sid]) else id)
    ensures IsReady(ready, payload, was, sid, id)
  {
    if !lookup.Returned? {
      return table, None, payload;
    }
    table', answer, ready := table, None, payload;
    var found := FindEvaluation(table, sid);
    FoundIsIt(table, was, sid);
    var eid := if found.Some? then found.value else id;
    if found.Some? {
      BareMerge(table[eid], payload);
      StoredIsIt(table, was, sid, eid, table[eid] + payload);
      if !write.Lost? || write.applied {
        table' := Patched(table, eid, payload);
      }
      ready := payload[Id := Text(eid)];
    } else {
      ready := payload[Id := Text(id)][CreatedAt := Stamp(now + 1)];
      assert Bare(ready) == payload[Id := Text(id)];
      IdsAreKeys(table, was);
      StoredIsIt(table, was, sid, id, ready);
      if !write.Lost? || write.applied {
        table' := table[id := ready];
      }
    }
    if write.Returned? {
      answer := Some(table'[eid]);
    }
  }

  /** The memory half of the upsert. */
  method UpsertLocal(
    table: map<Key, Row>, sid: Key, ready: Row, id: Key, now: nat,
    ghost was: map<Key, Row>, ghost patch: Row)
    returns (table': map<Key, Row>, r: Row)
    requires SameEvaluations(table, was)
    requires OfSession(patch, sid) && Id !in patch && CreatedAt !in patch
    requires forall s :: s in was ==> IdOf(was[s]) != id
    requires IsReady(ready, patch, was, sid, id)
    ensures SameEvaluations(table', was[sid := NextEvaluation(was, sid, patch, id)])
    ensures Bare(r) == NextEvaluation(was, sid, patch, id)
  {
    var found := FindEvaluation(table, sid);
    FoundIsIt(table, was, sid);
    if found.Some? {
      r := table[found.value] + ready;
      BareMerge(table[found.value], ready);
      assert was[sid] + ready == was[sid] + patch;
      StoredIsIt(table, was, sid, found.value, r);
      return table[found.value := r], r;
    }
    var eid := if Id in ready then ready[Id].text else id;
    r := ready[Id := Text(eid)][CreatedAt := Stamp(now + 2)];
    assert Bare(r) == patch[Id := Text(id)];
    IdsAreKeys(table, was);
    StoredIsIt(table, was, sid, eid, r);
    table' := table[eid := r];
  }

  /** An answer up to the creation stamp of evaluations. */
  function Seen(call: Call, r: Option<Row>): Option<Row> {
    if call.PutEvaluation? || call.ReadEvaluation? then BareOption(r) else r
  }

  /** One call, on the method that serves it. */
  method Serve(store: ForgeStore, call: Call, net: Net) returns (r: Option<Row>)
    requires store.Valid() && IsCall(store.plain, call, store.clock) && Ordered(store.plain.responses, store.clock)
    requires NamesStored(store.plain, call) && (net.first.Lost? || !RepeatsKey(store.plain, call))
    requires store.down ==> net.first.Lost? && net.second.Lost?
    requires net.first.Lost? ==> net.second.Lost?
    requires call.PutEvaluation? ==> !net.first.Quiet?
    modifies store, store.db
    ensures store.Valid() && store.clock == NextClock(old(store.clock), call)
    ensures store.down ==> old(store.down) || net.second.Lost?
    ensures store.plain == After(old(store.plain), call)
    ensures Seen(call, r) == Answer(old(store.plain), call)
  {
    hide SameEvaluations;
    match call
    case PostSession(row, id, now) => var row' := store.CreateSession(row, id, now, net.first); r := Some(row');
    case ReadSession(id) => r := store.GetSession(id, net.first);
    case PatchSession(id, patch, now) => r := store.UpdateSession(id, patch, now, net.first);
    case PostResponse(row, id, now) => var row' := store.CreateResponse(row, id, now, net.first); r := Some(row');
    case ReadResponse(id) => r := store.GetResponse(id, net.first);
    case ReadLatest(sid) =>
      r := store.GetLatestResponse(sid, net.first);
      LatestIsIt(store.plain.responses, sid, store.clock, r);
    case PatchResponse(id, patch, now) => r := store.UpdateResponse(id, patch, now, net.first, net.second);
    case PutEvaluation(sid, patch, id, now) =>
      var row' := store.UpsertEvaluation(sid, patch, id, now, net.first, net.second);
      r := Some(row');
    case ReadEvaluation(sid) => r := store.GetEvaluation(sid, net.first);
  }

  /** Many calls in turn. */
  method ServeAll(store: ForgeStore, calls: seq<Call>, nets: seq<Net>) returns (answers: seq<Option<Row>>)
    requires store.Valid() && Ordered(store.plain.responses, store.clock) && !store.down
    requires |calls| == |nets| && OneFailover(calls, nets)
    requires AreCalls(store.plain, calls, store.clock) && AreAccepted(store.plain, calls, nets)
    modifies store, store.db
    ensures store.Valid() && Ordered(store.plain.responses, store.clock)
    ensures store.plain == AfterAll(old(store.plain), calls) && store.clock == ClockAfter(old(store.clock), calls)
    ensures store.down ==> exists i :: 0 <= i < |nets| && nets[i].second.Lost?
    ensures |answers| == |calls|
    ensures forall i :: 0 <= i < |calls| ==> Seen(calls[i], answers[i]) == Answers(old(store.plain), calls)[i]
  {
    hide SameEvaluations, IsCall, NamesStored, RepeatsKey, After, Answer, Ordered, NextClock;
    answers := [];
    ghost var expected := Answers(store.plain, calls);
    for k := 0 to |calls|
      invariant store.Valid() && |answers| == k
      invariant store.down ==> k > 0 && nets[k - 1].second.Lost?
      invariant Ordered(store.plain.responses, store.clock)
      invariant AreCalls(store.plain, calls[k..], store.clock) 
      invariant AreAccepted(store.plain, calls[k..], nets[k..])
      invariant AfterAll(store.plain, calls[k..]) == AfterAll(old(store.plain), calls)
      invariant ClockAfter(store.clock, calls[k..]) == ClockAfter(old(store.clock), calls)
      invariant expected[k..] == Answers(store.plain, calls[k..])
      invariant forall i :: 0 <= i < k ==> Seen(calls[i], answers[i]) == expected[i]
    {
      assert calls[k..][0] == calls[k] && calls[k..][1..] == calls[k + 1..];
      assert nets[k..][0] == nets[k] && nets[k..][1..] == nets[k + 1..];
      CallKeepsOrder(store.plain, calls[k], store.clock);
      var r := Serve(store, calls[k], nets[k]);
      assert expected[k] == expected[k..][0] && expected[k + 1..] == expected[k..][1..];
      answers := answers + [r];
    }
  }

  /** Failover refinement: whatever the calls, and wherever the database stops answering, a new
      store answers every call as one plain in-memory map does, unless a repeated idempotency key
      reaches the database while it answers. */
  method Replay(calls: seq<Call>, nets: seq<Net>) returns (answers: seq<Option<Row>>)
    requires |calls| == |nets| && OneFailover(calls, nets)
    requires AreCalls(EMPTY, calls, 0) && AreAccepted(EMPTY, calls, nets)
    ensures |answers| == |calls|
    ensures forall i :: 0 <= i < |calls| ==> Seen(calls[i], answers[i]) == Answers(EMPTY, calls)[i]
  {
    var store := new ForgeStore();
    NothingIsOrdered();
    answers := ServeAll(store, calls, nets);
  }

  /** And it always fails then: after any calls and a response whose key its session already has,
      all on a database that answers, the next look at the session's latest response gives another
      row than the plain map. */
  method RepeatIsSeen(calls: seq<Call>, nets: seq<Net>, again: Call, reply: Reply) returns (latest: Option<Row>)
    requires |calls| == |nets| && OneFailover(calls, nets)
    requires !reply.Lost? && forall i :: 0 <= i < |nets| ==> !nets[i].second.Lost?
    requires AreCalls(EMPTY, calls, 0) && AreAccepted(EMPTY, calls, nets)
    requires var p := AfterAll(EMPTY, calls);
             IsCall(p, again, ClockAfter(0, calls)) && NamesStored(p, again) && RepeatsKey(p, again)
    ensures latest.Some?
    ensures latest != Answer(After(AfterAll(EMPTY, calls), again), ReadLatest(again.row[SessionId].text))
  {
    hide SameEvaluations, AreCalls, AreAccepted, AfterAll, ClockAfter, NewRow;
    var store := new ForgeStore();
    NothingIsOrdered();
    var answers := ServeAll(store, calls, nets);
    ghost var was := store.plain;
    ghost var clock := store.clock;
    var row' := store.CreateResponse(again.row, again.id, again.now, reply);
    var sid := again.row[SessionId].text;
    latest := store.GetLatestResponse(sid, Returned);
    NewIsLatest(was.responses, clock, again.row, again.id, again.now, sid, latest);
  }

  lemma NewIsLatest(responses: map<Key, Row>, clock: nat, row: Row, id: Key, now: nat, sid: Key, other: Option<Row>)
    requires Ordered(responses, clock) && clock <= now && id !in responses && OfSession(row, sid)
    requires IsLatestRow(responses, sid, other)
    ensures other != Latest(responses[id := NewRow(row, id, now)], sid)
  {
    var new' := responses[id := NewRow(row, id, now)];
    assert OfSession(new'[id], sid) && CreatedOf(new'[id]) == now;
    assert IsLatest(new', sid, id);
  }

  /** Such an input: one session and two responses with one key. */
  lemma RepeatHappens()
    ensures var row: Row := map[SessionId := Text("s"), IdempotencyKey := Text("key")];
            var calls := [PostSession(map[], "s", 0), PostResponse(row, "r", 3)];
            var again := PostResponse(row, "q", 6);
            var p := AfterAll(EMPTY, calls);
            && AreCalls(EMPTY, calls, 0) && AreLegal(EMPTY, calls)
            && IsCall(p, again, ClockAfter(0, calls)) && NamesStored(p, again) && RepeatsKey(p, again)
  {
    var row: Row := map[SessionId := Text("s"), IdempotencyKey := Text("key")];
    var first, second := PostSession(map[], "s", 0), PostResponse(row, "r", 3);
    var p1 := After(EMPTY, first);
    var p2 := After(p1, second);
    assert [first, second][1..] == [second] && [second][1..] == [];
    assert AfterAll(EMPTY, [first, second]) == AfterAll(p1, [second]) == AfterAll(p2, []) == p2;
    assert ClockAfter(0, [first, second]) == ClockAfter(3, [second]) == ClockAfter(6, []) == 6;
    assert !RepeatsKey(p1, second);
    assert AreLegal(p1, [second]);
    assert SameKey(p2.responses["r"], row);
  }

  /** The first row of the session, in no particular order. */
  method FindEvaluation(table: map<Key, Row>, sid: Key) returns (found: Option<Key>)
    ensures found.None? <==> forall e :: e in table ==> !OfSession(table[e], sid)
    ensures found.Some? ==> found.value in table && OfSession(table[found.value], sid)
  {
    var rest := table.Keys;
    while rest != {}
      invariant rest <= table.Keys
      invariant forall e :: e in table && e !in rest ==> !OfSession(table[e], sid)
    {
      var e :| e in rest;
      if OfSession(table[e], sid) {
        return Some(e);
      }
      rest := rest - {e};
    }
    return None;
  }

  /** The session's rows by creation stamp, newest first: the first of them. */
  method Newest(table: map<Key, Row>, sid: Key) returns (found: Option<Key>)
    ensures found.None? <==> forall rid :: rid in table ==> !OfSession(table[rid], sid)
    ensures found.Some? ==> IsLatest(table, sid, found.value)
  {
    found := None;
    var rest := table.Keys;
    while rest != {}
      invariant rest <= table.Keys
      invariant found.Some? ==> found.value in table && OfSession(table[found.value], sid)
      invariant forall rid :: rid in table && rid !in rest && OfSession(table[rid], sid) ==>
                  found.Some? && CreatedOf(table[rid]) <= CreatedOf(table[found.value])
    {
      var rid :| rid in rest;
      if OfSession(table[rid], sid) && (found.None? || CreatedOf(table[found.value]) < CreatedOf(table[rid])) {
        found := Some(rid);
      }
      rest := rest - {rid};
    }
  }
}
