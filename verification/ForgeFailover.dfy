/** The service on the mirrored store: a failover in the middle of any run is invisible to it. */
module ForgeFailover {
  import opened Wrappers
  import opened PlainStore
  import opened ForgeService
  import ForgeStore

  /** The store call an event makes, if any. */
  ghost function Made(s: State, e: Event): Option<Call> {
    if e.Tick? && IsTick(s, e.i, e.world) then CallOf(s.threads[e.i], s.clock, e.world) else None
  }

  /** The store calls of a run, in order. */
  ghost function CallsOf(s: State, events: seq<Event>): seq<Call>
    decreases |events|
  {
    if events == [] then [] else
    var made := Made(s, events[0]);
    (if made.Some? then [made.value] else []) + CallsOf(Apply(s, events[0]), events[1..])
  }

  /** The answers on which the threads of the run went on. */
  ghost function AnswersSeen(s: State, events: seq<Event>): seq<Option<Row>>
    decreases |events|
  {
    if events == [] then [] else
    var made := Made(s, events[0]);
    (if made.Some? then [Answer(s.store, made.value)] else []) + AnswersSeen(Apply(s, events[0]), events[1..])
  }

  /** Every run makes only well-formed calls, so `ForgeStore.Replay` serves it: through any one
      failover it gives each call the answer that the run was made with. */
  lemma {:induction false} RunsAreServed(s: State, events: seq<Event>)
    ensures AreCalls(s.store, CallsOf(s, events), s.clock)
    ensures Answers(s.store, CallsOf(s, events)) == AnswersSeen(s, events)
    decreases |events|
  {
    hide IsCall, CallOf, Next, After, Answer, NextClock;
    if events != [] {
      var made, s' := Made(s, events[0]), Apply(s, events[0]);
      RunsAreServed(s', events[1..]);
      if made.Some? {
        var calls := CallsOf(s, events);
        assert calls[0] == made.value && calls[1..] == CallsOf(s', events[1..]);
        assert s'.store == After(s.store, made.value) && s'.clock == NextClock(s.clock, made.value);
      } else {
        assert CallsOf(s, events) == CallsOf(s', events[1..]);
      }
    }
  }

  // ---------------------------------------------------------------------------------------
  // The calls of a run are legal

  /** The session and the idempotency key of a response that is about to be created. */
  function KeyOf(t: Thread): Option<(Key, string)> {
    match t
    case OpenSession(sid, key, _, _) => Some((sid, key))
    case OpenCreate(sid, key, _, _) => Some((sid, key))
    case _ => None
  }

  function KeyOfEvent(e: Event): Option<(Key, string)> {
    if e.Request? && IsRequest(e.thread) then KeyOf(e.thread) else None
  }

  /** No two requests of the run open a response with the same session and key. */
  predicate KeysDiffer(events: seq<Event>) {
    forall i, j :: 0 <= i < j < |events| && KeyOfEvent(events[i]).Some? ==> KeyOfEvent(events[i]) != KeyOfEvent(events[j])
  }

  predicate RowHas(row: Row, k: (Key, string)) {
    OfSession(row, k.0) && IdempotencyKey in row && row[IdempotencyKey] == Text(k.1)
  }

  /** The key is stored, or on its way. */
  ghost predicate IsUsed(s: State, k: (Key, string)) {
    || (exists i :: 0 <= i < |s.threads| && KeyOf(s.threads[i]) == Some(k))
    || (exists rid :: rid in s.store.responses && RowHas(s.store.responses[rid], k))
  }

  /** No key that is on its way is stored, or on its way twice. */
  ghost predicate KeysApart(s: State) {
    && (forall i, j :: 0 <= i < j < |s.threads| && KeyOf(s.threads[i]).Some? ==> KeyOf(s.threads[i]) != KeyOf(s.threads[j]))
    && (forall i, rid :: 0 <= i < |s.threads| && KeyOf(s.threads[i]).Some? && rid in s.store.responses ==>
          !RowHas(s.store.responses[rid], KeyOf(s.threads[i]).value))
  }

  /** The keys that the run still brings are new. */
  ghost predicate KeysAreNew(s: State, events: seq<Event>) {
    && KeysApart(s) && KeysDiffer(events)
    && forall i :: 0 <= i < |events| && KeyOfEvent(events[i]).Some? ==> !IsUsed(s, KeyOfEvent(events[i]).value)
  }

  /** A call stores no key but the one of a new response. */
  lemma CallBringsKey(store: Plain, call: Call, clock: nat, rid: Key, k: (Key, string))
    requires IsCall(store, call, clock)
    requires rid in After(store, call).responses && RowHas(After(store, call).responses[rid], k)
    ensures (rid in store.responses && RowHas(store.responses[rid], k)) || (call.PostResponse? && RowHas(call.row, k))
  {
  }

  lemma NextKeepsKey(t: Thread, answer: Option<Row>, w: World, clock: nat)
    ensures var (t', started) := Next(t, answer, w);
            && (KeyOf(t').Some? ==> KeyOf(t') == KeyOf(t) && t.OpenSession?)
            && (started.Some? ==> KeyOf(started.value) == None)
    ensures var call := CallOf(t, clock, w);
            call.Some? && call.value.PostResponse? ==>
              t.OpenCreate? && forall k :: RowHas(call.value.row, k) <==> Some(k) == KeyOf(t)
  {
  }

  /** A key in use after a step was in use before it. */
  lemma {:induction false} TickBringsNoKey(s: State, i: nat, w: World, k: (Key, string))
    requires IsTick(s, i, w) && IsUsed(Apply(s, Tick(i, w)), k)
    ensures IsUsed(s, k)
  {
    hide CallOf, Next, After, RowHas, KeyOf, Answer, IsCall;
    var t := s.threads[i];
    var call := CallOf(t, s.clock, w);
    var s' := Apply(s, Tick(i, w));
    NextKeepsKey(t, AnswerTo(s.store, call), w, s.clock);
    if j :| 0 <= j < |s'.threads| && KeyOf(s'.threads[j]) == Some(k) {
      assert j < |s.threads| && KeyOf(s.threads[j]) == Some(k);
    } else {
      var rid :| rid in s'.store.responses && RowHas(s'.store.responses[rid], k);
      if call.Some? {
        CallBringsKey(s.store, call.value, s.clock, rid, k);
      }
    }
  }

  lemma {:induction false} TickKeepsKeysApart(s: State, i: nat, w: World)
    requires IsTick(s, i, w) && KeysApart(s)
    ensures KeysApart(Apply(s, Tick(i, w)))
  {
    hide CallOf, Next, After, RowHas, KeyOf, Answer, IsCall;
    var t := s.threads[i];
    var call := CallOf(t, s.clock, w);
    var s' := Apply(s, Tick(i, w));
    NextKeepsKey(t, AnswerTo(s.store, call), w, s.clock);
    forall j, rid | 0 <= j < |s'.threads| && KeyOf(s'.threads[j]).Some? && rid in s'.store.responses
      ensures !RowHas(s'.store.responses[rid], KeyOf(s'.threads[j]).value)
    {
      var k := KeyOf(s'.threads[j]).value;
      assert j < |s.threads| && KeyOf(s.threads[j]) == Some(k);
      if call.Some? && RowHas(s'.store.responses[rid], k) {
        CallBringsKey(s.store, call.value, s.clock, rid, k);
      }
    }
  }

  lemma {:induction false} ApplyKeepsKeysNew(s: State, events: seq<Event>)
    requires events != [] && KeysAreNew(s, events)
    ensures KeysAreNew(Apply(s, events[0]), events[1..])
  {
    hide CallOf, Next, After, RowHas, KeyOf, Answer, IsCall;
    var e, s' := events[0], Apply(s, events[0]);
    match e
    case Request(t) =>
      forall j | 0 <= j < |events| - 1 && KeyOfEvent(events[1..][j]).Some?
        ensures !IsUsed(s', KeyOfEvent(events[1..][j]).value)
      {
        assert events[1..][j] == events[j + 1];
        assert KeyOfEvent(events[0]).Some? ==> KeyOfEvent(events[0]) != KeyOfEvent(events[j + 1]);
        assert !IsUsed(s, KeyOfEvent(events[j + 1]).value);
      }
      if IsRequest(t) {
        forall j | 0 <= j < |s.threads| && KeyOf(s.threads[j]).Some? ensures KeyOf(s.threads[j]) != KeyOf(t) {
          assert KeyOf(t).Some? ==> !IsUsed(s, KeyOf(t).value);
        }
        forall rid | rid in s.store.responses && KeyOf(t).Some? ensures !RowHas(s.store.responses[rid], KeyOf(t).value) {
          assert !IsUsed(s, KeyOfEvent(e).value);
        }
      }
    case Tick(i, w) =>
      if IsTick(s, i, w) {
        TickKeepsKeysApart(s, i, w);
      }
      forall j | 0 <= j < |events| - 1 && KeyOfEvent(events[1..][j]).Some?
        ensures !IsUsed(s', KeyOfEvent(events[1..][j]).value)
      {
        assert events[1..][j] == events[j + 1];
        if IsTick(s, i, w) && IsUsed(s', KeyOfEvent(events[j + 1]).value) {
          TickBringsNoKey(s, i, w, KeyOfEvent(events[j + 1]).value);
        }
      }
  }

  /** A call of a thread violates no constraint of the schema. */
  lemma {:induction false} CallIsLegal(s: State, i: nat, w: World)
    requires Inv(s) && KeysApart(s) && IsTick(s, i, w) && CallOf(s.threads[i], s.clock, w).Some?
    ensures IsLegal(s.store, CallOf(s.threads[i], s.clock, w).value)
  {
    hide CallOf, Next, KeyOf, StoreOk, Owes, IsCall;
    var t := s.threads[i];
    var call := CallOf(t, s.clock, w).value;
    ThreadIsSafe(s.store, s.clock, t, w);
    NextKeepsKey(t, None, w, s.clock);
    if call.PostResponse? {
      OpenRowHas(t, s.clock, w);
      assert forall row: Row :: SameKey(row, call.row) ==> RowHas(row, KeyOf(t).value);
    }
  }

  lemma OpenRowHas(t: Thread, clock: nat, w: World)
    requires CallOf(t, clock, w).Some? && CallOf(t, clock, w).value.PostResponse?
    ensures KeyOf(t).Some? && RowHas(CallOf(t, clock, w).value.row, KeyOf(t).value)
  {
  }

  /** So every run whose requests bring no key twice makes only legal calls. */
  lemma {:induction false} RunsAreLegal(s: State, events: seq<Event>)
    requires Inv(s) && KeysAreNew(s, events)
    ensures AreLegal(s.store, CallsOf(s, events))
    decreases |events|
  {
    hide Inv, KeysAreNew, IsCall, CallOf, Next, After, Answer, NextClock, IsLegal;
    if events != [] {
      var made, s' := Made(s, events[0]), Apply(s, events[0]);
      ApplyKeepsInv(s, events[0]);
      ApplyKeepsKeysNew(s, events);
      RunsAreLegal(s', events[1..]);
      if made.Some? {
        KeysStayApart(s, events);
        CallIsLegal(s, events[0].i, events[0].world);
        var calls := CallsOf(s, events);
        assert calls[0] == made.value && calls[1..] == CallsOf(s', events[1..]);
        assert s'.store == After(s.store, made.value);
      } else {
        assert CallsOf(s, events) == CallsOf(s', events[1..]);
      }
    }
  }

  lemma KeysStayApart(s: State, events: seq<Event>)
    requires KeysAreNew(s, events)
    ensures KeysApart(s)
  {
  }

  lemma KeysStartNew(events: seq<Event>)
    requires KeysDiffer(events)
    ensures KeysAreNew(START, events)
  {
  }

  // ---------------------------------------------------------------------------------------
  // The service on the mirrored store

  /** What a failover may change in an answer, the creation stamp of an evaluation, no thread
      ever looks at. */
  lemma StampIsNotSeen(t: Thread, clock: nat, w: World, answer: Option<Row>, served: Option<Row>)
    requires CallOf(t, clock, w).Some?
    requires ForgeStore.Seen(CallOf(t, clock, w).value, served) == answer
    ensures Next(t, served, w) == Next(t, answer, w)
  {
  }

  /** Whatever the run, through whatever failover the store gives each of its calls the answer
      that the run was made with. */
  method ServeRun(ghost events: seq<Event>, script: seq<Call>, nets: seq<ForgeStore.Net>)
    returns (answers: seq<Option<Row>>)
    requires KeysDiffer(events) && script == CallsOf(START, events)
    requires |nets| == |script| && ForgeStore.OneFailover(script, nets)
    ensures |answers| == |script| == |AnswersSeen(START, events)|
    ensures forall i :: 0 <= i < |script| ==>
              ForgeStore.Seen(script[i], answers[i]) == AnswersSeen(START, events)[i]
  {
    StartIsOk();
    KeysStartNew(events);
    RunsAreServed(START, events);
    RunsAreLegal(START, events);
    ForgeStore.LegalIsAccepted(EMPTY, script, nets);
    answers := ForgeStore.Replay(script, nets);
  }

  /** Every tick moves a thread: the ids that uuid4 returns are new. */
  ghost predicate AllMove(s: State, events: seq<Event>)
    decreases |events|
  {
    events == [] ||
    ((events[0].Tick? ==> IsTick(s, events[0].i, events[0].world)) && AllMove(Apply(s, events[0]), events[1..]))
  }

  /** The database answers up to some event and never again, and the lookup of an upsert tells the truth. */
  ghost predicate FailsOnce(s: State, events: seq<Event>, nets: seq<ForgeStore.Net>)
    requires |events| == |nets|
    decreases |events|
  {
    events == [] ||
    (&& (nets[0].first.Lost? ==> nets[0].second.Lost?)
     && (nets[0].second.Lost? ==> forall i :: 0 < i < |nets| ==> nets[i].first.Lost? && nets[i].second.Lost?)
     && (Made(s, events[0]).Some? && Made(s, events[0]).value.PutEvaluation? ==> !nets[0].first.Quiet?)
     && FailsOnce(Apply(s, events[0]), events[1..], nets[1..]))
  }

  /** The threads themselves on a mirrored store, going on with whatever it answers: through
      any failover they end where they end on the plain store. */
  method RunOnStore(events: seq<Event>, nets: seq<ForgeStore.Net>) returns (threads: seq<Thread>)
    requires KeysDiffer(events) && AllMove(START, events)
    requires |events| == |nets| && FailsOnce(START, events, nets)
    ensures threads == Run(START, events).threads
  {
    hide Inv, KeysAreNew, IsCall, CallOf, Next, After, Answer, NextClock, NamesStored, RepeatsKey, Ordered;
    var store := new ForgeStore.ForgeStore();
    var clock := 0;
    threads := [];
    ghost var s := START;
    StartIsOk();
    KeysStartNew(events);
    NothingIsOrdered();
    for k := 0 to |events|
      invariant fresh(store) && fresh(store.db) && store.Valid()
      invariant store.plain == s.store && store.clock == clock == s.clock && threads == s.threads
      invariant Ordered(s.store.responses, s.clock)
      invariant Inv(s) && KeysAreNew(s, events[k..])
      invariant AllMove(s, events[k..]) && FailsOnce(s, events[k..], nets[k..])
      invariant store.down ==> forall i :: k <= i < |nets| ==> nets[i].first.Lost? && nets[i].second.Lost?
      invariant Run(s, events[k..]) == Run(START, events)
    {
      assert events[k..][0] == events[k] && events[k..][1..] == events[k + 1..];
      assert nets[k..][0] == nets[k] && nets[k..][1..] == nets[k + 1..];
      ghost var s' := Apply(s, events[k]);
      ApplyKeepsInv(s, events[k]);
      ApplyKeepsKeysNew(s, events[k..]);
      match events[k] {
        case Request(t) =>
          if IsRequest(t) {
            threads := threads + [t];
          }
        case Tick(i, w) =>
          var answer: Option<Row> := None;
          var call := CallOf(threads[i], clock, w);
          if call.Some? {
            KeysStayApart(s, events[k..]);
            CallIsLegal(s, i, w);
            CallKeepsOrder(s.store, call.value, s.clock);
            answer := ForgeStore.Serve(store, call.value, nets[k]);
            StampIsNotSeen(threads[i], clock, w, AnswerTo(s.store, call), answer);
            clock := NextClock(clock, call.value);
          }
          var (next, started) := Next(threads[i], answer, w);
          threads := threads[i := next];
          if started.Some? {
            threads := threads + [started.value];
          }
      }
      s := s';
      forall j | k + 1 <= j < |nets| && store.down ensures nets[j].first.Lost? && nets[j].second.Lost? {
        assert nets[j] == nets[k..][j - k];
      }
    }
  }
}
