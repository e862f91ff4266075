/** Feedback coherence: the coach card that get_feedback returns was computed from the
    transcript that it returns. */
module ForgeFeedback {
  import opened Wrappers
  import opened PlainStore
  import opened ForgeService
  import opened ForgeProgress

  /** The transcript of the session's latest response. */
  ghost function LatestText(store: Plain, sid: Key): string {
    var latest := Latest(store.responses, sid);
    if latest.Some? then TextOf(latest.value, Transcript) else ""
  }

  /** What get_feedback returns when no other step falls between its reads: nothing unless the
      evaluation is ready. */
  ghost function StoredFeedback(store: Plain, sid: Key): Option<Feedback> {
    if sid !in store.sessions || !IsReady(Lookup(store.evaluations, sid)) then None
    else Some(Feedback(LatestText(store, sid), store.evaluations[sid][CoachCard].card))
  }

  /** The session has at most this one response, and the response no other session. */
  ghost predicate OnlyResponse(store: Plain, sid: Key, rid: Key) {
    forall other :: other in store.responses ==> (OfSession(store.responses[other], sid) <==> other == rid)
  }

  /** A pipeline of the response between saying that work is under way and its last write. */
  predicate InFlight(t: Thread, rid: Key) {
    (t.PipeListen? || t.PipeCoach?) && t.rid == rid
  }

  /** No two pipelines of the response are in flight together. */
  ghost predicate Apart(s: State, rid: Key) {
    forall i, j :: 0 <= i < j < |s.threads| ==> !InFlight(s.threads[i], rid) || !InFlight(s.threads[j], rid)
  }

  /** At every point of the run. */
  ghost predicate AlwaysApart(s: State, events: seq<Event>, rid: Key)
    decreases |events|
  {
    Apart(s, rid) && (events == [] || AlwaysApart(Apply(s, events[0]), events[1..], rid))
  }

  function TranscriptOf(store: Plain, rid: Key): string {
    if rid in store.responses then TextOf(store.responses[rid], Transcript) else ""
  }

  /** While a pipeline is in flight nothing is ready, and the transcript it goes by is the stored
      one; otherwise a ready card was computed from the stored transcript. */
  ghost predicate Coherent(s: State, sid: Key, rid: Key) {
    && ((exists i :: 0 <= i < |s.threads| && InFlight(s.threads[i], rid)) ==>
          !IsReady(Lookup(s.store.evaluations, sid)))
    && (forall i :: 0 <= i < |s.threads| && s.threads[i].PipeCoach? && s.threads[i].rid == rid ==>
          s.threads[i].transcript == TranscriptOf(s.store, rid))
    && (IsReady(Lookup(s.store.evaluations, sid)) ==>
          s.store.evaluations[sid][CoachCard].card.heard == Spoken(TranscriptOf(s.store, rid)))
  }

  lemma OnlyBefore(a: Plain, b: Plain, sid: Key, rid: Key)
    requires StoreOk(a) && Grows(a, b) && OnlyResponse(b, sid, rid)
    ensures OnlyResponse(a, sid, rid)
  {
  }

  /** The only pieces of a call that touch a stored transcript or a stored evaluation. */
  lemma CallTouches(store: Plain, call: Call, clock: nat, sid: Key, rid: Key)
    requires IsCall(store, call, clock)
    requires call.PostResponse? ==> Transcript !in call.row
    ensures var store' := After(store, call);
            && TranscriptOf(store', rid) ==
               (if call.PatchResponse? && call.id == rid && rid in store.responses && Transcript in call.patch
                then TextOf(call.patch, Transcript) else TranscriptOf(store, rid))
            && (!(call.PutEvaluation? && call.sid == sid) ==>
                  Lookup(store'.evaluations, sid) == Lookup(store.evaluations, sid))
            && (call.PutEvaluation? && call.sid == sid && TagOf(call.patch, Status).Some? ==>
                  && sid in store'.evaluations
                  && (IsGood(store'.evaluations[sid]) <==> IsGood(call.patch))
                  && (HasCard(call.patch) ==> store'.evaluations[sid][CoachCard] == call.patch[CoachCard]))
  {
  }

  /** Only speech recognition writes a transcript, only the last write of a pipeline makes an
      evaluation good, and a pipeline takes flight by saying that work is under way. */
  lemma ThreadWrites(t: Thread, clock: nat, answer: Option<Row>, w: World)
    ensures var call := CallOf(t, clock, w);
            var (t', started) := Next(t, answer, w);
            && (call.Some? && call.value.PostResponse? ==> Transcript !in call.value.row)
            && (call.Some? && call.value.PatchResponse? && Transcript in call.value.patch ==>
                  && t.PipeListen? && call.value.id == t.rid && !t'.PipeListen?
                  && (t'.PipeCoach? ==> t'.rid == t.rid && t'.transcript == TextOf(call.value.patch, Transcript)))
            && (call.Some? && call.value.PutEvaluation? && IsGood(call.value.patch) ==>
                  && t.PipeCoach? && t.sid == call.value.sid && HasCard(call.value.patch)
                  && call.value.patch[CoachCard].card.heard == Spoken(t.transcript))
            && (t'.PipeListen? ==>
                  && t.PipeProcessing? && t'.rid == t.rid
                  && call.Some? && call.value.PutEvaluation? && call.value.sid == t.sid
                  && TagOf(call.value.patch, Status) == Some(Processing))
            && (t'.PipeCoach? ==>
                  t.PipeListen? && t'.rid == t.rid && call.Some? && call.value.PatchResponse? && call.value.id == t.rid
                  && Transcript in call.value.patch)
  {
  }

  /** What the step of thread `t`, going on as `t'`, may do to the session's readiness and to
      the transcript of its response. */
  ghost predicate MayTouch(store: Plain, store': Plain, t: Thread, t': Thread, sid: Key, rid: Key) {
    var before, after := Lookup(store.evaluations, sid), Lookup(store'.evaluations, sid);
    && (IsReady(after) ==>
          || after == before
          || (t.PipeCoach? && t.rid == rid && !InFlight(t', rid) && TranscriptOf(store', rid) == TranscriptOf(store, rid)
              && after.value[CoachCard].card.heard == Spoken(t.transcript)))
    && (InFlight(t', rid) ==> IsReady(after) ==> after == before && InFlight(t, rid))
    && (TranscriptOf(store', rid) != TranscriptOf(store, rid) ==> InFlight(t, rid) && after == before)
    && (t'.PipeCoach? && t'.rid == rid ==> t'.transcript == TranscriptOf(store', rid))
  }

  lemma {:induction false} StepMayTouch(store: Plain, clock: nat, t: Thread, w: World, sid: Key, rid: Key)
    requires StoreOk(store) && ThreadOk(store, t) && OnlyResponse(store, sid, rid)
    requires CallOf(t, clock, w).Some? ==> IsCall(store, CallOf(t, clock, w).value, clock)
    ensures var call := CallOf(t, clock, w);
            MayTouch(store, StoreAfter(store, call), t, Next(t, AnswerTo(store, call), w).0, sid, rid)
  {
    hide StoreOk, CallOf, Next, After, Answer, IsCall, IsGood, HasCard, TranscriptOf, IsSafe;
    var call := CallOf(t, clock, w);
    ThreadWrites(t, clock, AnswerTo(store, call), w);
    if call.Some? {
      CallTouches(store, call.value, clock, sid, rid);
      ThreadIsSafe(store, clock, t, w);
      SafePutHasStatus(store, call.value);
    }
  }

  lemma TouchKeepsCoherent(s: State, s': State, i: nat, sid: Key, rid: Key)
    requires Coherent(s, sid, rid) && Apart(s, rid)
    requires i < |s.threads| <= |s'.threads|
    requires forall k :: 0 <= k < |s'.threads| && k != i ==>
               if k < |s.threads| then s'.threads[k] == s.threads[k] else !InFlight(s'.threads[k], rid)
    requires MayTouch(s.store, s'.store, s.threads[i], s'.threads[i], sid, rid)
    ensures Coherent(s', sid, rid)
  {
  }

  /** In a session with one response whose pipelines never overlap, every step keeps the ready
      card and the stored transcript together. */
  lemma {:induction false} TickKeepsCoherent(s: State, i: nat, w: World, sid: Key, rid: Key)
    requires Inv(s) && IsTick(s, i, w) && Coherent(s, sid, rid)
    requires OnlyResponse(s.store, sid, rid)
    requires Apart(s, rid)
    ensures Coherent(Apply(s, Tick(i, w)), sid, rid)
  {
    hide StoreOk, CallOf, Next, StoreAfter, AnswerTo, IsCall, MayTouch, Coherent, OnlyResponse, Apart;
    var s' := Apply(s, Tick(i, w));
    StepMayTouch(s.store, s.clock, s.threads[i], w, sid, rid);
    NextIsOk(s.store, s.clock, s.threads[i], w);
    TouchKeepsCoherent(s, s', i, sid, rid);
  }

  lemma {:induction false} ApplyKeepsCoherent(s: State, e: Event, sid: Key, rid: Key)
    requires Inv(s) && Coherent(s, sid, rid) && OnlyResponse(s.store, sid, rid) && Apart(s, rid)
    ensures Coherent(Apply(s, e), sid, rid)
  {
    hide StoreOk, CallOf, Next, After, Answer, IsGood, HasCard, TranscriptOf;
    match e
    case Tick(i, w) => if IsTick(s, i, w) { TickKeepsCoherent(s, i, w, sid, rid); }
    case Request(t) =>
      if IsRequest(t) {
        var threads := s.threads + [t];
        assert forall k :: 0 <= k < |threads| && InFlight(threads[k], rid) ==> k < |s.threads| && s.threads[k] == threads[k];
      }
  }

  lemma ApplyGrows(s: State, e: Event)
    requires Inv(s)
    ensures Grows(s.store, Apply(s, e).store)
  {
    hide CallOf, Next, After, Answer, StoreOk;
    if e.Tick? && IsTick(s, e.i, e.world) {
      StepKeepsStore(s.store, s.clock, s.threads[e.i], e.world);
    }
  }

  lemma {:induction false} RunGrows(s: State, events: seq<Event>)
    requires Inv(s)
    ensures Grows(s.store, Run(s, events).store)
    decreases |events|
  {
    hide Inv, Apply;
    if events != [] {
      ApplyGrows(s, events[0]);
      ApplyKeepsInv(s, events[0]);
      RunGrows(Apply(s, events[0]), events[1..]);
    }
  }

  lemma {:induction false} RunKeepsCoherent(s: State, events: seq<Event>, sid: Key, rid: Key)
    requires Inv(s) && Coherent(s, sid, rid)
    requires AlwaysApart(s, events, rid) && OnlyResponse(Run(s, events).store, sid, rid)
    ensures Coherent(Run(s, events), sid, rid)
    decreases |events|
  {
    hide Inv, Apply, Coherent, OnlyResponse, Apart;
    if events != [] {
      RunGrows(s, events);
      InvHasStoreOk(s);
      OnlyBefore(s.store, Run(s, events).store, sid, rid);
      ApplyKeepsCoherent(s, events[0], sid, rid);
      ApplyKeepsInv(s, events[0]);
      RunKeepsCoherent(Apply(s, events[0]), events[1..], sid, rid);
    }
  }

  lemma InvHasStoreOk(s: State)
    requires Inv(s)
    ensures StoreOk(s.store)
  {
  }

  /** Whatever the run, in a session whose one response is `rid` and whose pipelines never
      overlap, the stored card, once ready, was computed from the stored transcript. */
  lemma {:induction false} StoredIsCoherent(events: seq<Event>, sid: Key, rid: Key)
    requires rid in Run(START, events).store.responses
    requires OnlyResponse(Run(START, events).store, sid, rid)
    requires AlwaysApart(START, events, rid)
    ensures var feedback := StoredFeedback(Run(START, events).store, sid);
            feedback.Some? ==> feedback.value.card.heard == Spoken(feedback.value.transcript)
  {
    hide Inv, AlwaysApart, Apart, OnlyResponse;
    var store := Run(START, events).store;
    StartIsOk();
    StartIsCoherent(sid, rid);
    RunKeepsCoherent(START, events, sid, rid);
    LatestIsOnly(store, sid, rid);
  }

  lemma StartIsCoherent(sid: Key, rid: Key)
    ensures Coherent(START, sid, rid)
  {
  }

  /** get_feedback succeeds exactly when the stored status is good: such an evaluation always
      has its card. */
  lemma GoodMeansReady(events: seq<Event>, sid: Key)
    requires sid in Run(START, events).store.evaluations
    ensures var store := Run(START, events).store;
            StoredFeedback(store, sid).Some? <==> IsGood(store.evaluations[sid])
  {
    RunKeepsInv(START, events);
    var store := Run(START, events).store;
    assert EvaluationOk(store, sid);
  }

  lemma LatestIsOnly(store: Plain, sid: Key, rid: Key)
    requires OnlyResponse(store, sid, rid) && rid in store.responses
    ensures Latest(store.responses, sid) == Some(store.responses[rid])
    ensures TextOf(store.responses[rid], Transcript) == TranscriptOf(store, rid)
  {
    assert IsLatest(store.responses, sid, rid);
  }
}
