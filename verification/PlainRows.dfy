/** What each store call does to the rows, column by column: the promises that its callers rely on. */
module PlainRows {
  import opened Wrappers
  import opened PlainStore

  /** `after` holds every column of the patch with its new value and every other column of
      `before`, apart from the time of the update. */
  ghost predicate IsMerged(before: Row, patch: Row, after: Row, now: nat) {
    && UpdatedAt in after && after[UpdatedAt] == Stamp(now)
    && (forall f :: f in patch && f != UpdatedAt ==> f in after && after[f] == patch[f])
    && (forall f :: f in before && f !in patch && f != UpdatedAt ==> f in after && after[f] == before[f])
    && (forall f :: f in after ==> f in before || f in patch || f == UpdatedAt)
  }

  /** `after` holds what is given, under a new id, and two stamps. */
  ghost predicate IsNew(given: Row, id: Key, after: Row, now: nat) {
    && Id in after && after[Id] == Text(id)
    && CreatedAt in after && after[CreatedAt] == Stamp(now)
    && UpdatedAt in after && after[UpdatedAt] == Stamp(now + 1)
    && (forall f :: f in given && f !in {Id, CreatedAt, UpdatedAt} ==> f in after && after[f] == given[f])
    && (forall f :: f in after ==> f in given || f in {Id, CreatedAt, UpdatedAt})
  }

  ghost predicate OnlyChanges(before: map<Key, Row>, after: map<Key, Row>, key: Key) {
    forall k :: k != key ==> (k in after <==> k in before) && (k in before ==> after[k] == before[k])
  }

  /** A patch of a stored session is answered with the merged row; of an unknown one, with nothing. */
  lemma {:induction false} PatchSessionMerges(p: Plain, id: Key, patch: Row, now: nat)
    ensures var (p', r) := (After(p, PatchSession(id, patch, now)), Answer(p, PatchSession(id, patch, now)));
            && p'.responses == p.responses && p'.evaluations == p.evaluations
            && OnlyChanges(p.sessions, p'.sessions, id)
            && (id in p.sessions ==>
                  id in p'.sessions && r == Some(p'.sessions[id]) && IsMerged(p.sessions[id], patch, p'.sessions[id], now))
            && (id !in p.sessions ==> p' == p && r == None)
  {
  }

  lemma {:induction false} PatchResponseMerges(p: Plain, id: Key, patch: Row, now: nat)
    ensures var (p', r) := (After(p, PatchResponse(id, patch, now)), Answer(p, PatchResponse(id, patch, now)));
            && p'.sessions == p.sessions && p'.evaluations == p.evaluations
            && OnlyChanges(p.responses, p'.responses, id)
            && (id in p.responses ==>
                  id in p'.responses && r == Some(p'.responses[id]) && IsMerged(p.responses[id], patch, p'.responses[id], now))
            && (id !in p.responses ==> p' == p && r == None)
  {
  }

  lemma {:induction false} PostSessionAdds(p: Plain, row: Row, id: Key, now: nat)
    ensures var (p', r) := (After(p, PostSession(row, id, now)), Answer(p, PostSession(row, id, now)));
            && p'.responses == p.responses && p'.evaluations == p.evaluations
            && OnlyChanges(p.sessions, p'.sessions, id)
            && id in p'.sessions && r == Some(p'.sessions[id]) && IsNew(row, id, p'.sessions[id], now)
  {
  }

  lemma {:induction false} PostResponseAdds(p: Plain, row: Row, id: Key, now: nat)
    ensures var (p', r) := (After(p, PostResponse(row, id, now)), Answer(p, PostResponse(row, id, now)));
            && p'.sessions == p.sessions && p'.evaluations == p.evaluations
            && OnlyChanges(p.responses, p'.responses, id)
            && id in p'.responses && r == Some(p'.responses[id]) && IsNew(row, id, p'.responses[id], now)
  {
  }

  /** The session's one evaluation takes the patch and keeps its id, or starts with the patch and
      the new id; it names its session either way. */
  lemma {:induction false} PutEvaluationMerges(p: Plain, sid: Key, patch: Row, id: Key, now: nat)
    requires IsPatch(patch)
    ensures var call := PutEvaluation(sid, patch, id, now);
            var (p', r) := (After(p, call), Answer(p, call));
            && p'.sessions == p.sessions && p'.responses == p.responses
            && OnlyChanges(p.evaluations, p'.evaluations, sid)
            && sid in p'.evaluations && r == Some(p'.evaluations[sid])
            && var row := p'.evaluations[sid];
               && SessionId in row && row[SessionId] == Text(sid)
               && UpdatedAt in row && row[UpdatedAt] == Stamp(now)
               && (forall f :: f in patch && f != UpdatedAt ==> f in row && row[f] == patch[f])
               && (sid in p.evaluations ==>
                     (forall f :: f in p.evaluations[sid] && f !in patch && f !in {SessionId, UpdatedAt} ==>
                        f in row && row[f] == p.evaluations[sid][f])
                     && (forall f :: f in row ==> f in p.evaluations[sid] || f in patch || f in {SessionId, UpdatedAt}))
               && (sid !in p.evaluations ==>
                     && Id in row && row[Id] == Text(id)
                     && (forall f :: f in row ==> f in patch || f in {Id, SessionId, UpdatedAt}))
  {
  }

  /** Reads change nothing and answer with what is stored. */
  lemma {:induction false} ReadsAreRows(p: Plain, id: Key)
    ensures After(p, ReadSession(id)) == After(p, ReadResponse(id)) == After(p, ReadEvaluation(id)) == p
    ensures After(p, ReadLatest(id)) == p
    ensures Answer(p, ReadSession(id)) == if id in p.sessions then Some(p.sessions[id]) else None
    ensures Answer(p, ReadResponse(id)) == if id in p.responses then Some(p.responses[id]) else None
    ensures Answer(p, ReadEvaluation(id)) == if id in p.evaluations then Some(p.evaluations[id]) else None
  {
  }

  predicate NamesSession(row: Row, sid: Key) { SessionId in row && row[SessionId] == Text(sid) }

  /** The stamp of the row's creation; a row without one counts as the oldest. */
  predicate IsCreatedAt(row: Row, at: nat) {
    (CreatedAt in row && row[CreatedAt] == Stamp(at)) || ((CreatedAt !in row || !row[CreatedAt].Stamp?) && at == 0)
  }

  /** The latest response of a session is one of its rows that was created last, if it has any. */
  lemma {:induction false} LatestIsLast(p: Plain, sid: Key)
    ensures var r := Answer(p, ReadLatest(sid));
            && (r.None? <==> forall rid :: rid in p.responses ==> !NamesSession(p.responses[rid], sid))
            && (r.Some? ==> exists rid, at ::
                  && rid in p.responses && p.responses[rid] == r.value && NamesSession(r.value, sid) && IsCreatedAt(r.value, at)
                  && (forall other, at' ::
                        other in p.responses && NamesSession(p.responses[other], sid) && IsCreatedAt(p.responses[other], at')
                        ==> at' <= at))
  {
    if rid :| rid in p.responses && NamesSession(p.responses[rid], sid) {
      var last := LastOf(p.responses, p.responses.Keys, sid, rid);
      assert IsLatest(p.responses, sid, last);
    }
    var r := Answer(p, ReadLatest(sid));
    if r.Some? {
      var rid :| IsLatest(p.responses, sid, rid) && p.responses[rid] == r.value;
      assert IsCreatedAt(r.value, CreatedOf(r.value));
    }
  }

  lemma {:induction false} LastOf(responses: map<Key, Row>, keys: set<Key>, sid: Key, first: Key) returns (last: Key)
    requires first in keys && keys <= responses.Keys && NamesSession(responses[first], sid)
    ensures last in keys && NamesSession(responses[last], sid)
    ensures forall rid :: rid in keys && NamesSession(responses[rid], sid) ==>
      CreatedOf(responses[rid]) <= CreatedOf(responses[last])
  {
    hide NamesSession, CreatedOf;
    last := first;
    var todo := keys;
    while todo != {}
      invariant todo <= keys && last in keys && NamesSession(responses[last], sid)
      invariant forall rid :: rid in keys - todo && NamesSession(responses[rid], sid) ==>
        CreatedOf(responses[rid]) <= CreatedOf(responses[last])
    {
      var rid :| rid in todo;
      todo := todo - {rid};
      if NamesSession(responses[rid], sid) && CreatedOf(responses[rid]) > CreatedOf(responses[last]) {
        last := rid;
      }
    }
  }

  /** A new response repeats a key exactly when a stored one of the same session has it. */
  lemma {:induction false} KeysRepeatBySession(p: Plain, sid: Key, key: string, row: Row, id: Key, now: nat)
    requires NamesSession(row, sid) && IdempotencyKey in row && row[IdempotencyKey] == Text(key)
    ensures RepeatsKey(p, PostResponse(row, id, now)) <==>
      exists rid :: rid in p.responses && NamesSession(p.responses[rid], sid)
                    && IdempotencyKey in p.responses[rid] && p.responses[rid][IdempotencyKey] == Text(key)
  {
  }

  predicate WritesSession(call: Call, id: Key) { (call.PatchSession? || call.PostSession?) && call.id == id }
  predicate WritesResponse(call: Call, id: Key) { (call.PatchResponse? || call.PostResponse?) && call.id == id }
  predicate WritesEvaluation(call: Call, sid: Key) { call.PutEvaluation? && call.sid == sid }

  /** A row stays as it is until it is written. */
  lemma {:induction false} RowsStay(p: Plain, calls: seq<Call>, id: Key)
    ensures (forall i :: 0 <= i < |calls| ==> !WritesSession(calls[i], id)) ==>
      Answer(AfterAll(p, calls), ReadSession(id)) == Answer(p, ReadSession(id))
    ensures (forall i :: 0 <= i < |calls| ==> !WritesResponse(calls[i], id)) ==>
      Answer(AfterAll(p, calls), ReadResponse(id)) == Answer(p, ReadResponse(id))
    ensures (forall i :: 0 <= i < |calls| ==> !WritesEvaluation(calls[i], id)) ==>
      Answer(AfterAll(p, calls), ReadEvaluation(id)) == Answer(p, ReadEvaluation(id))
    decreases |calls|
  {
    hide After;
    if calls != [] {
      RowsStay(After(p, calls[0]), calls[1..], id);
      OneCallStays(p, calls[0], id);
      ReadsAreRows(p, id);
      ReadsAreRows(After(p, calls[0]), id);
    }
  }

  lemma {:induction false} OneCallStays(p: Plain, call: Call, id: Key)
    ensures !WritesSession(call, id) ==> Lookup(After(p, call).sessions, id) == Lookup(p.sessions, id)
    ensures !WritesResponse(call, id) ==> Lookup(After(p, call).responses, id) == Lookup(p.responses, id)
    ensures !WritesEvaluation(call, id) ==> Lookup(After(p, call).evaluations, id) == Lookup(p.evaluations, id)
  {
  }

  /** So what a patch of a session is answered with is what every later read gives until the next
      write: the new values of the patched columns and the old ones of the others. */
  lemma {:induction false} PatchedSessionIsRead(p: Plain, id: Key, patch: Row, now: nat, calls: seq<Call>)
    requires id in p.sessions && forall i :: 0 <= i < |calls| ==> !WritesSession(calls[i], id)
    ensures var r := Answer(AfterAll(After(p, PatchSession(id, patch, now)), calls), ReadSession(id));
            r.Some? && r == Answer(p, PatchSession(id, patch, now)) && IsMerged(p.sessions[id], patch, r.value, now)
  {
    hide After, AfterAll, IsMerged;
    PatchSessionMerges(p, id, patch, now);
    RowsStay(After(p, PatchSession(id, patch, now)), calls, id);
    ReadsAreRows(After(p, PatchSession(id, patch, now)), id);
  }

  lemma {:induction false} PatchedResponseIsRead(p: Plain, id: Key, patch: Row, now: nat, calls: seq<Call>)
    requires id in p.responses && forall i :: 0 <= i < |calls| ==> !WritesResponse(calls[i], id)
    ensures var r := Answer(AfterAll(After(p, PatchResponse(id, patch, now)), calls), ReadResponse(id));
            r.Some? && r == Answer(p, PatchResponse(id, patch, now)) && IsMerged(p.responses[id], patch, r.value, now)
  {
    hide After, AfterAll, IsMerged;
    PatchResponseMerges(p, id, patch, now);
    RowsStay(After(p, PatchResponse(id, patch, now)), calls, id);
    ReadsAreRows(After(p, PatchResponse(id, patch, now)), id);
  }

  lemma {:induction false} PutEvaluationIsRead(p: Plain, sid: Key, patch: Row, id: Key, now: nat, calls: seq<Call>)
    requires IsPatch(patch) && forall i :: 0 <= i < |calls| ==> !WritesEvaluation(calls[i], sid)
    ensures var r := Answer(AfterAll(After(p, PutEvaluation(sid, patch, id, now)), calls), ReadEvaluation(sid));
            && r.Some? && r == Answer(p, PutEvaluation(sid, patch, id, now))
            && forall f :: f in patch && f != UpdatedAt ==> f in r.value && r.value[f] == patch[f]
  {
    hide After, AfterAll;
    PutEvaluationMerges(p, sid, patch, id, now);
    RowsStay(After(p, PutEvaluation(sid, patch, id, now)), calls, sid);
    ReadsAreRows(After(p, PutEvaluation(sid, patch, id, now)), sid);
  }

  lemma {:induction false} PostedIsRead(p: Plain, row: Row, id: Key, now: nat, calls: seq<Call>)
    ensures (forall i :: 0 <= i < |calls| ==> !WritesSession(calls[i], id)) ==>
      var r := Answer(AfterAll(After(p, PostSession(row, id, now)), calls), ReadSession(id));
      r.Some? && IsNew(row, id, r.value, now)
    ensures (forall i :: 0 <= i < |calls| ==> !WritesResponse(calls[i], id)) ==>
      var r := Answer(AfterAll(After(p, PostResponse(row, id, now)), calls), ReadResponse(id));
      r.Some? && IsNew(row, id, r.value, now)
  {
    hide After, AfterAll, IsNew;
    PostSessionAdds(p, row, id, now);
    PostResponseAdds(p, row, id, now);
    RowsStay(After(p, PostSession(row, id, now)), calls, id);
    RowsStay(After(p, PostResponse(row, id, now)), calls, id);
    ReadsAreRows(After(p, PostSession(row, id, now)), id);
    ReadsAreRows(After(p, PostResponse(row, id, now)), id);
  }
}
