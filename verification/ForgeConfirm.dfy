/** Who may confirm a recording, what finalizing leaves, and how long a recording may be: what runs
    of english_forge/service.py keep of the requests that they serve. */
module ForgeConfirm {
  import opened Wrappers
  import opened PlainStore
  import opened ForgeService
  import opened ForgeProgress
  import opened ForgeReads

  /** The response is stored for this session, under this key and with this duration. */
  predicate Names(row: Row, sid: Key, key: string, duration: nat) {
    && SessionId in row && row[SessionId] == Text(sid)
    && IdempotencyKey in row && row[IdempotencyKey] == Text(key)
    && DurationSec in row && row[DurationSec] == Number(duration)
  }

  /** The run has such a request. */
  predicate IsAsked(events: seq<Event>, sid: Key, rid: Key, key: string, duration: nat) {
    exists k :: 0 <= k < |events| && events[k] == Request(ConfirmSession(sid, rid, key, duration))
  }

  /** The run has a confirmation with the columns of the row. */
  ghost predicate IsVouched(events: seq<Event>, row: Row, rid: Key, sid: Key) {
    exists key: string, duration: nat :: Names(row, sid, key, duration) && IsAsked(events, sid, rid, key, duration)
  }

  predicate IsFull(row: Row) {
    && SessionId in row && row[SessionId].Text?
    && IdempotencyKey in row && row[IdempotencyKey].Text?
    && DurationSec in row && row[DurationSec].Number? && row[DurationSec].number >= 0
  }

  ghost predicate ResponseIsVouched(events: seq<Event>, row: Row, rid: Key) {
    && IsFull(row)
    && (Status in row && row[Status] == Label(Confirmed) ==> IsVouched(events, row, rid, row[SessionId].text))
  }

  ghost predicate ThreadIsVouched(events: seq<Event>, store: Plain, t: Thread) {
    match t
    case ConfirmSession(sid, rid, key, duration) => IsAsked(events, sid, rid, key, duration)
    case ConfirmResponse(sid, rid, key, duration) => IsAsked(events, sid, rid, key, duration)
    case ConfirmObject(sid, rid) => rid in store.responses && IsVouched(events, store.responses[rid], rid, sid)
    case ConfirmPending(sid, rid) => rid in store.responses && IsVouched(events, store.responses[rid], rid, sid)
    case ConfirmLaunch(sid, rid) => rid in store.responses && IsVouched(events, store.responses[rid], rid, sid)
    case _ => true
  }

  ghost predicate AllVouched(events: seq<Event>, s: State) {
    && (forall rid :: rid in s.store.responses ==> ResponseIsVouched(events, s.store.responses[rid], rid))
    && (forall i :: 0 <= i < |s.threads| ==> ThreadIsVouched(events, s.store, s.threads[i]))
  }

  /** The columns of a confirmation, and the status, as a write may leave them. */
  predicate KeepsNames(before: Row, after: Row) {
    && (forall f :: f in {SessionId, IdempotencyKey, DurationSec} && f in before ==> f in after && after[f] == before[f])
  }

  lemma {:induction false} VouchedStays(events: seq<Event>, before: Row, after: Row, rid: Key, sid: Key)
    requires IsVouched(events, before, rid, sid) && KeepsNames(before, after)
    ensures IsVouched(events, after, rid, sid)
  {
    var key: string, duration: nat :| Names(before, sid, key, duration) && IsAsked(events, sid, rid, key, duration);
    assert Names(after, sid, key, duration);
  }

  /** What a thread's call does to stored responses. */
  lemma {:induction false} CallOnResponse(t: Thread, clock: nat, w: World)
    ensures var call := CallOf(t, clock, w);
            && (call.Some? && call.value.PatchResponse? ==>
                  && DurationSec !in call.value.patch && IsPatch(call.value.patch)
                  && (Status in call.value.patch ==> t.ConfirmObject? && t.rid == call.value.id))
            && (call.Some? && call.value.PostResponse? ==>
                  && IsFull(call.value.row) && Status in call.value.row && call.value.row[Status] == Label(PendingUpload))
  {
  }

  lemma {:induction false} PatchOnResponse(store: Plain, call: Call, clock: nat, rid: Key)
    requires IsCall(store, call, clock) && rid in store.responses
    requires call.PatchResponse? ==> DurationSec !in call.patch
    ensures rid in After(store, call).responses
    ensures KeepsNames(store.responses[rid], After(store, call).responses[rid])
    ensures !(call.PatchResponse? && call.id == rid && Status in call.patch) ==>
      (Status in After(store, call).responses[rid] <==> Status in store.responses[rid])
      && (Status in store.responses[rid] ==> After(store, call).responses[rid][Status] == store.responses[rid][Status])
  {
  }

  lemma {:induction false} NewOnResponse(store: Plain, call: Call, clock: nat, rid: Key)
    requires IsCall(store, call, clock) && rid !in store.responses && rid in After(store, call).responses
    ensures call.PostResponse? && call.id == rid
    ensures var row := After(store, call).responses[rid];
            forall f :: f in call.row && f !in {Id, CreatedAt, UpdatedAt} ==> f in row && row[f] == call.row[f]
  {
  }

  lemma {:induction false} TickKeepsResponses(events: seq<Event>, s: State, i: nat, w: World, rid: Key)
    requires AllVouched(events, s) && IsTick(s, i, w)
    requires rid in Apply(s, Tick(i, w)).store.responses
    ensures ResponseIsVouched(events, Apply(s, Tick(i, w)).store.responses[rid], rid)
    ensures rid in s.store.responses ==> KeepsNames(s.store.responses[rid], Apply(s, Tick(i, w)).store.responses[rid])
  {
    hide CallOf, Next, IsCall, After, Answer, IsVouched;
    var call := CallOf(s.threads[i], s.clock, w);
    CallOnResponse(s.threads[i], s.clock, w);
    var after := Apply(s, Tick(i, w)).store;
    if call.Some? && rid in s.store.responses {
      var (row, row') := (s.store.responses[rid], after.responses[rid]);
      PatchOnResponse(s.store, call.value, s.clock, rid);
      assert ResponseIsVouched(events, row, rid);
      if s.threads[i].ConfirmObject? && s.threads[i].rid == rid {
        assert ThreadIsVouched(events, s.store, s.threads[i]);
        VouchedNames(events, row, rid, s.threads[i].sid);
      }
      if IsVouched(events, row, rid, row[SessionId].text) {
        VouchedStays(events, row, row', rid, row[SessionId].text);
      }
    } else if call.Some? {
      NewOnResponse(s.store, call.value, s.clock, rid);
    } else {
      assert ResponseIsVouched(events, s.store.responses[rid], rid);
    }
  }

  lemma {:induction false} VouchedNames(events: seq<Event>, row: Row, rid: Key, sid: Key)
    requires IsVouched(events, row, rid, sid)
    ensures SessionId in row && row[SessionId] == Text(sid)
  {
  }

  /** Only the accepted confirmation of a response goes on, and the steps after it. */
  lemma {:induction false} NextIsVouched(t: Thread, answer: Option<Row>, w: World)
    ensures var t' := Next(t, answer, w).0;
            && !t'.ConfirmSession?
            && (t'.ConfirmResponse? ==> t == ConfirmSession(t'.sid, t'.rid, t'.key, t'.duration))
            && (t'.ConfirmObject? || t'.ConfirmPending? ==>
                  || (t.ConfirmResponse? && t.sid == t'.sid && t.rid == t'.rid && answer.Some?
                      && (IsFull(answer.value) ==> Names(answer.value, t.sid, t.key, t.duration)))
                  || (t.ConfirmObject? && t.sid == t'.sid && t.rid == t'.rid))
            && (t'.ConfirmLaunch? ==> t == ConfirmPending(t'.sid, t'.rid))
    ensures var started := Next(t, answer, w).1; started.Some? ==> started.value.PipeResponse?
  {
  }

  lemma {:induction false} ConfirmReads(t: Thread, store: Plain, clock: nat, w: World)
    requires t.ConfirmResponse?
    ensures AnswerTo(store, CallOf(t, clock, w)) == if t.rid in store.responses then Some(store.responses[t.rid]) else None
  {
  }

  lemma {:induction false} TickKeepsThreads(events: seq<Event>, s: State, i: nat, w: World, j: nat)
    requires AllVouched(events, s) && IsTick(s, i, w) && j < |Apply(s, Tick(i, w)).threads|
    ensures ThreadIsVouched(events, Apply(s, Tick(i, w)).store, Apply(s, Tick(i, w)).threads[j])
  {
    hide CallOf, Next, IsCall, After, Answer, IsVouched, IsAsked;
    var t := s.threads[i];
    var call := CallOf(t, s.clock, w);
    var s' := Apply(s, Tick(i, w));
    NextIsVouched(t, AnswerTo(s.store, call), w);
    assert ThreadIsVouched(events, s.store, t);
    var t' := s'.threads[j];
    if t'.ConfirmObject? || t'.ConfirmPending? || t'.ConfirmLaunch? {
      var rid := t'.rid;
      if j == i && t.ConfirmResponse? {
        ConfirmReads(t, s.store, s.clock, w);
        assert ResponseIsVouched(events, s.store.responses[rid], rid);
        NamesAreVouched(events, s.store.responses[rid], rid, t.sid, t.key, t.duration);
      } else if j < |s.threads| {
        assert ThreadIsVouched(events, s.store, s.threads[j]);
      }
      if call.Some? {
        CallOnResponse(t, s.clock, w);
        PatchOnResponse(s.store, call.value, s.clock, rid);
        VouchedStays(events, s.store.responses[rid], s'.store.responses[rid], rid, t'.sid);
      }
    } else if j < |s.threads| && j != i {
      assert ThreadIsVouched(events, s.store, s.threads[j]);
    }
  }

  lemma {:induction false} NamesAreVouched(events: seq<Event>, row: Row, rid: Key, sid: Key, key: string, duration: nat)
    requires Names(row, sid, key, duration) && IsAsked(events, sid, rid, key, duration)
    ensures IsVouched(events, row, rid, sid)
  {
  }

  lemma {:induction false} ApplyKeepsVouched(events: seq<Event>, s: State, e: Event)
    requires AllVouched(events, s) && e in events
    ensures AllVouched(events, Apply(s, e))
  {
    hide CallOf, Next, After, Answer, ThreadIsVouched, ResponseIsVouched, IsCall;
    match e
    case Request(t) =>
      if IsRequest(t) {
        RequestIsVouched(events, s.store, t);
      }
    case Tick(i, w) =>
      if IsTick(s, i, w) {
        forall rid | rid in Apply(s, e).store.responses
          ensures ResponseIsVouched(events, Apply(s, e).store.responses[rid], rid)
        {
          TickKeepsResponses(events, s, i, w, rid);
        }
        forall j | 0 <= j < |Apply(s, e).threads| ensures ThreadIsVouched(events, Apply(s, e).store, Apply(s, e).threads[j]) {
          TickKeepsThreads(events, s, i, w, j);
        }
      }
  }

  lemma {:induction false} RequestIsVouched(events: seq<Event>, store: Plain, t: Thread)
    requires IsRequest(t) && Request(t) in events
    ensures ThreadIsVouched(events, store, t)
  {
  }

  lemma {:induction false} RunIsVouched(events: seq<Event>, k: nat)
    requires k <= |events|
    ensures AllVouched(events, At(events, k))
  {
    hide Apply, ThreadIsVouched, ResponseIsVouched;
    if k == 0 {
      assert events[..0] == [];
    } else {
      RunIsVouched(events, k - 1);
      AtStep(events, k - 1);
      ApplyKeepsVouched(events, At(events, k - 1), events[k - 1]);
    }
  }

  /** In every run, a response that is stored as confirmed was confirmed by a request that names
      its own session, idempotency key and duration. */
  lemma {:induction false} ConfirmedWasAsked(events: seq<Event>, rid: Key)
    requires rid in Run(START, events).store.responses
    requires var row := Run(START, events).store.responses[rid]; Status in row && row[Status] == Label(Confirmed)
    ensures var row := Run(START, events).store.responses[rid];
            exists sid: Key, key: string, duration: nat, k ::
              && 0 <= k < |events| && events[k] == Request(ConfirmSession(sid, rid, key, duration))
              && SessionId in row && row[SessionId] == Text(sid)
              && IdempotencyKey in row && row[IdempotencyKey] == Text(key)
              && DurationSec in row && row[DurationSec] == Number(duration)
  {
    hide Run;
    RunIsVouched(events, |events|);
    assert events[..|events|] == events;
    var row := Run(START, events).store.responses[rid];
    assert ResponseIsVouched(events, row, rid);
    AskedInline(events, row, rid, row[SessionId].text);
  }

  /** And so was every confirmation under way. */
  lemma {:induction false} ConfirmingWasAsked(events: seq<Event>, i: nat)
    requires i < |Run(START, events).threads|
    requires var t := Run(START, events).threads[i]; t.ConfirmObject? || t.ConfirmPending? || t.ConfirmLaunch?
    ensures var (t, store) := (Run(START, events).threads[i], Run(START, events).store);
            && t.rid in store.responses
            && var row := store.responses[t.rid];
               exists key: string, duration: nat, k ::
                 && 0 <= k < |events| && events[k] == Request(ConfirmSession(t.sid, t.rid, key, duration))
                 && SessionId in row && row[SessionId] == Text(t.sid)
                 && IdempotencyKey in row && row[IdempotencyKey] == Text(key)
                 && DurationSec in row && row[DurationSec] == Number(duration)
  {
    hide Run;
    RunIsVouched(events, |events|);
    assert events[..|events|] == events;
    var t := Run(START, events).threads[i];
    assert ThreadIsVouched(events, Run(START, events).store, t);
    AskedInline(events, Run(START, events).store.responses[t.rid], t.rid, t.sid);
  }

  lemma {:induction false} AskedInline(events: seq<Event>, row: Row, rid: Key, sid: Key)
    requires IsVouched(events, row, rid, sid)
    ensures exists key: string, duration: nat, k ::
              && 0 <= k < |events| && events[k] == Request(ConfirmSession(sid, rid, key, duration))
              && SessionId in row && row[SessionId] == Text(sid)
              && IdempotencyKey in row && row[IdempotencyKey] == Text(key)
              && DurationSec in row && row[DurationSec] == Number(duration)
  {
    var key: string, duration: nat :| Names(row, sid, key, duration) && IsAsked(events, sid, rid, key, duration);
    var k :| 0 <= k < |events| && events[k] == Request(ConfirmSession(sid, rid, key, duration));
  }

  /** A confirmation goes on exactly when the stored response has its session, its key and its
      duration; any other leaves the store as it is and starts nothing. */
  lemma {:induction false} ConfirmationIsChecked(events: seq<Event>, i: nat, w: World)
    requires i < |Run(START, events).threads| && Run(START, events).threads[i].ConfirmResponse?
    ensures var s := Run(START, events);
            var (t, s') := (s.threads[i], Apply(s, Tick(i, w)));
            var matches := t.rid in s.store.responses
              && (var row := s.store.responses[t.rid];
                  && SessionId in row && row[SessionId] == Text(t.sid)
                  && IdempotencyKey in row && row[IdempotencyKey] == Text(t.key)
                  && DurationSec in row && row[DurationSec] == Number(t.duration));
            && s'.store == s.store && s'.clock == s.clock
            && (!matches ==> s'.threads == s.threads[i := Done])
            && (matches ==>
                  s'.threads == s.threads[i := if Status in s.store.responses[t.rid]
                                               && s.store.responses[t.rid][Status] == Label(Confirmed)
                                               then ConfirmPending(t.sid, t.rid) else ConfirmObject(t.sid, t.rid)])
  {
    hide Run, IsVouched;
    RunIsVouched(events, |events|);
    assert events[..|events|] == events;
    var s := Run(START, events);
    var t := s.threads[i];
    if t.rid in s.store.responses {
      assert ResponseIsVouched(events, s.store.responses[t.rid], t.rid);
    }
  }

  // ---------------------------------------------------------------------------------------
  // Finalized sessions

  predicate IsFinalized(store: Plain, sid: Key) {
    sid in store.sessions && Status in store.sessions[sid] && store.sessions[sid][Status] == Label(Finalized)
  }

  lemma {:induction false} SessionCalls(t: Thread, clock: nat, w: World)
    ensures var call := CallOf(t, clock, w);
            call.Some? && call.value.PatchSession? ==>
              t.FinalizeUpdate? && t.sid == call.value.id && call.value.patch == map[Status := Label(Finalized)]
    ensures t.FinalizeUpdate? ==> CallOf(t, clock, w) == Some(PatchSession(t.sid, map[Status := Label(Finalized)], clock))
  {
  }

  lemma {:induction false} CallKeepsFinalized(store: Plain, call: Call, clock: nat, sid: Key)
    requires IsCall(store, call, clock)
    requires call.PatchSession? ==> call.patch == map[Status := Label(Finalized)]
    requires IsFinalized(store, sid) || (call.PatchSession? && call.id == sid && sid in store.sessions)
    ensures IsFinalized(After(store, call), sid)
  {
  }

  lemma {:induction false} ApplyKeepsFinalized(s: State, e: Event, sid: Key)
    requires IsFinalized(s.store, sid)
    ensures IsFinalized(Apply(s, e).store, sid)
  {
    hide CallOf, Next, After, Answer, IsFinalized, IsCall;
    if e.Tick? && IsTick(s, e.i, e.world) {
      var call := CallOf(s.threads[e.i], s.clock, e.world);
      SessionCalls(s.threads[e.i], s.clock, e.world);
      if call.Some? {
        CallKeepsFinalized(s.store, call.value, s.clock, sid);
      }
    }
  }

  /** Once finalize_session has written, the session is finalized in every later state. */
  lemma {:induction false} FinalizedStays(events: seq<Event>, k: nat, i: nat, n: nat)
    requires k < n <= |events| && Moves(events, k, i) && At(events, k).threads[i].FinalizeUpdate?
    ensures var (store, sid) := (At(events, n).store, At(events, k).threads[i].sid);
            sid in store.sessions && Status in store.sessions[sid] && store.sessions[sid][Status] == Label(Finalized)
    decreases n
  {
    hide CallOf, Next, After, Answer, IsCall, At, Inv;
    var s := At(events, k);
    AtStep(events, n - 1);
    if n == k + 1 {
      AtIsOk(events, k);
      FinalizeHasSession(s, i);
      SessionCalls(s.threads[i], s.clock, events[k].world);
      CallKeepsFinalized(s.store, CallOf(s.threads[i], s.clock, events[k].world).value, s.clock, s.threads[i].sid);
    } else {
      FinalizedStays(events, k, i, n - 1);
      ApplyKeepsFinalized(At(events, n - 1), events[n - 1], s.threads[i].sid);
    }
  }

  lemma {:induction false} FinalizeHasSession(s: State, i: nat)
    requires Inv(s) && i < |s.threads| && s.threads[i].FinalizeUpdate?
    ensures s.threads[i].sid in s.store.sessions
  {
    assert ThreadOk(s.store, s.threads[i]);
  }
}
