/** Feedback that shows one recording's card beside the other's transcript: what leads to it, and
    runs from the start that do. */
module ForgeOverlap {
  import opened Wrappers
  import opened PlainStore
  import opened ForgeService
  import opened ForgeProgress
  import opened ForgeFeedback

  function Hears(text: string): World {
    World(false, Some(0), Heard(text), EvaluatorRaised, false, "f")
  }

  function Judges(verdict: string): World {
    World(false, Some(0), NoObject, Judged(verdict, false), false, "f")
  }

  /** The first half of the mix: a pipeline about to listen hears `text`. */
  lemma {:induction false} ListenStep(s: State, i: nat, sid: Key, rid: Key, text: string)
    requires i < |s.threads| && s.threads[i] == PipeListen(rid, sid) && rid in s.store.responses
    ensures var s' := Apply(s, Tick(i, Hears(text)));
            && s'.threads == s.threads[i := PipeCoach(rid, sid, text, false)]
            && s'.store.evaluations == s.store.evaluations && s'.store.sessions == s.store.sessions
            && s'.store.responses.Keys == s.store.responses.Keys
            && TranscriptOf(s'.store, rid) == text
            && (OnlyResponse(s.store, sid, rid) ==> OnlyResponse(s'.store, sid, rid))
  {
  }

  lemma {:induction false} CoachStep(s: State, i: nat, sid: Key, rid: Key, transcript: string, stub: bool, verdict: string)
    requires i < |s.threads| && s.threads[i] == PipeCoach(rid, sid, transcript, stub)
    requires IsNewEvaluationId(s.store, "f")
    ensures var s' := Apply(s, Tick(i, Judges(verdict)));
            && s'.threads == s.threads[i := Done]
            && s'.store.responses == s.store.responses && s'.store.sessions == s.store.sessions
            && IsReady(Lookup(s'.store.evaluations, sid))
            && s'.store.evaluations[sid][CoachCard].card == Card(Spoken(transcript), verdict)
            && (sid in s.store.evaluations ==> IsNewEvaluationId(s'.store, "f"))
  {
  }

  lemma {:induction false} RunOfOne(s: State, e: Event)
    ensures Run(s, [e]) == Apply(s, e)
  {
  }

  lemma {:induction false} RunOfTwo(s: State, a: Event, b: Event)
    ensures Run(s, [a, b]) == Apply(Apply(s, a), b)
  {
    hide Apply;
    RunOfOne(Apply(s, a), b);
    assert [a, b][1..] == [b];
  }

  lemma {:induction false} RunOfThree(s: State, a: Event, b: Event, c: Event)
    ensures Run(s, [a, b, c]) == Apply(Apply(Apply(s, a), b), c)
  {
    hide Apply;
    RunOfTwo(Apply(s, a), b, c);
    assert [a, b, c][1..] == [b, c];
  }

  /** Feedback whose card was not computed from its transcript. */
  ghost predicate IsMixed(store: Plain, sid: Key) {
    var feedback := StoredFeedback(store, sid);
    feedback.Some? && feedback.value.card.heard != Spoken(feedback.value.transcript)
  }

  lemma {:induction false} MixedMeans(store: Plain, sid: Key, rid: Key)
    requires Belongs(store, rid, sid) && OnlyResponse(store, sid, rid) && IsReady(Lookup(store.evaluations, sid))
    ensures IsMixed(store, sid) <==> store.evaluations[sid][CoachCard].card.heard != Spoken(TranscriptOf(store, rid))
  {
    hide IsReady, TranscriptOf, OnlyResponse;
    LatestIsOnly(store, sid, rid);
  }

  /** Two pipelines of the response in flight, apart from two that are both about to be judged by
      the stored transcript. */
  ghost predicate MayMix(s: State, i: nat, j: nat, sid: Key, rid: Key) {
    && i < |s.threads| && j < |s.threads| && i != j
    && InFlight(s.threads[i], rid) && InFlight(s.threads[j], rid) && s.threads[i].sid == s.threads[j].sid == sid
    && !(&& s.threads[i].PipeCoach? && Spoken(s.threads[i].transcript) == Spoken(TranscriptOf(s.store, rid))
         && s.threads[j].PipeCoach? && Spoken(s.threads[j].transcript) == Spoken(TranscriptOf(s.store, rid)))
  }

  /** One coach with another text than the stored one mixes in one step. */
  lemma {:induction false} CoachMixes(s: State, i: nat, sid: Key, rid: Key)
    requires i < |s.threads| && s.threads[i].PipeCoach? && s.threads[i].rid == rid && s.threads[i].sid == sid
    requires Belongs(s.store, rid, sid) && OnlyResponse(s.store, sid, rid) && IsNewEvaluationId(s.store, "f")
    requires Spoken(s.threads[i].transcript) != Spoken(TranscriptOf(s.store, rid))
    ensures var s' := Apply(s, Tick(i, Judges(""))); IsMixed(s'.store, sid) && OnlyResponse(s'.store, sid, rid)
  {
    hide Apply, IsReady, OnlyResponse, IsMixed, TranscriptOf;
    var t := s.threads[i];
    CoachStep(s, i, sid, rid, t.transcript, t.stub, "");
    SameTranscript(s.store, Apply(s, Tick(i, Judges(""))).store, sid, rid);
    MixedMeans(Apply(s, Tick(i, Judges(""))).store, sid, rid);
  }

  lemma {:induction false} SameTranscript(a: Plain, b: Plain, sid: Key, rid: Key)
    requires a.responses == b.responses && a.sessions == b.sessions
    ensures TranscriptOf(a, rid) == TranscriptOf(b, rid)
    ensures OnlyResponse(a, sid, rid) == OnlyResponse(b, sid, rid) && Belongs(a, rid, sid) == Belongs(b, rid, sid)
  {
  }

  /** A pipeline that is still listening, beside a coach, mixes in two. */
  lemma {:induction false} ListenerMixes(s: State, i: nat, j: nat, sid: Key, rid: Key, text: string)
    requires i < |s.threads| && j < |s.threads| && i != j
    requires s.threads[i] == PipeListen(rid, sid)
    requires s.threads[j].PipeCoach? && s.threads[j].rid == rid && s.threads[j].sid == sid
    requires Belongs(s.store, rid, sid) && OnlyResponse(s.store, sid, rid) && IsNewEvaluationId(s.store, "f")
    requires Spoken(text) != Spoken(s.threads[j].transcript)
    ensures var s' := Run(s, [Tick(i, Hears(text)), Tick(j, Judges(""))]);
            IsMixed(s'.store, sid) && OnlyResponse(s'.store, sid, rid)
  {
    hide Apply, IsReady, IsMixed, TranscriptOf;
    ListenStep(s, i, sid, rid, text);
    RunOfTwo(s, Tick(i, Hears(text)), Tick(j, Judges("")));
    var s1 := Apply(s, Tick(i, Hears(text)));
    assert OfSession(s1.store.responses[rid], sid);
    CoachMixes(s1, j, sid, rid);
  }

  /** The pipelines must be kept apart: from any state with two of them in flight, other than two
      that go by the stored transcript, some steps of the two lead to mixed feedback. */
  lemma {:induction false} OverlapMixesFeedback(s: State, i: nat, j: nat, sid: Key, rid: Key) returns (more: seq<Event>)
    requires MayMix(s, i, j, sid, rid)
    requires Belongs(s.store, rid, sid) && OnlyResponse(s.store, sid, rid) && IsNewEvaluationId(s.store, "f")
    ensures IsMixed(Run(s, more).store, sid) && OnlyResponse(Run(s, more).store, sid, rid)
    ensures |more| <= 3 && forall k :: 0 <= k < |more| ==> more[k].Tick? && more[k].i in {i, j}
  {
    hide Apply, IsReady, IsMixed, TranscriptOf, OnlyResponse, Run;
    if s.threads[i].PipeCoach? && Spoken(s.threads[i].transcript) != Spoken(TranscriptOf(s.store, rid)) {
      CoachMixes(s, i, sid, rid);
      more := [Tick(i, Judges(""))];
      RunOfOne(s, more[0]);
    } else if s.threads[j].PipeCoach? && Spoken(s.threads[j].transcript) != Spoken(TranscriptOf(s.store, rid)) {
      CoachMixes(s, j, sid, rid);
      more := [Tick(j, Judges(""))];
      RunOfOne(s, more[0]);
    } else {
      var (a, b) := if s.threads[i].PipeListen? then (i, j) else (j, i);
      if s.threads[b].PipeCoach? {
        var text := OtherText(s.threads[b].transcript);
        ListenerMixes(s, a, b, sid, rid, text);
        more := [Tick(a, Hears(text)), Tick(b, Judges(""))];
      } else {
        var first := Tick(b, Hears("a"));
        ListenStep(s, b, sid, rid, "a");
        var s1 := Apply(s, first);
        StaysOwned(s, s1, sid, rid);
        ListenerMixes(s1, a, b, sid, rid, "b");
        var rest := [Tick(a, Hears("b")), Tick(b, Judges(""))];
        more := [first] + rest;
        RunConcat(s, [first], rest);
        RunOfOne(s, first);
      }
    }
  }

  function OtherText(text: string): (other: string)
    ensures Spoken(other) != Spoken(text)
  {
    if Spoken(text) == "a" then "b" else "a"
  }

  lemma {:induction false} StaysOwned(s: State, s1: State, sid: Key, rid: Key)
    requires Belongs(s.store, rid, sid) && OnlyResponse(s1.store, sid, rid)
    requires s1.store.sessions == s.store.sessions && s1.store.responses.Keys == s.store.responses.Keys
    ensures Belongs(s1.store, rid, sid)
  {
  }

  // ---------------------------------------------------------------------------------------
  // One session with one response

  const SID: Key := "s"
  const RID: Key := "r"
  const IDLE := Hears("")
  const EARLY := IDLE.(newId := "e")

  /** The scene of the runs below. */
  ghost predicate Scene(s: State) {
    && Belongs(s.store, RID, SID) && OnlyResponse(s.store, SID, RID)
    && IdOf(s.store.responses[RID]) == RID
    && TextOf(s.store.responses[RID], IdempotencyKey) == "" && NumberOf(s.store.responses[RID], DurationSec, 0) == 0
    && IsNewEvaluationId(s.store, "f")
  }

  /** What a step of the scene may leave alone. */
  predicate SamePair(a: State, b: State) {
    && TranscriptOf(b.store, RID) == TranscriptOf(a.store, RID)
    && (SID in a.store.evaluations ==> SID in b.store.evaluations)
    && (CardAt(a.store, SID) ==>
          CardAt(b.store, SID) && b.store.evaluations[SID][CoachCard] == a.store.evaluations[SID][CoachCard])
  }

  /** One more event, with the pipelines still apart. */
  lemma {:induction false} OneMore(events: seq<Event>, e: Event)
    requires AlwaysApart(START, events, RID)
    ensures Run(START, events + [e]) == Apply(Run(START, events), e)
    ensures Apart(Run(START, events + [e]), RID) ==> AlwaysApart(START, events + [e], RID)
  {
    hide Apply, Apart;
    RunConcat(START, events, [e]);
    RunOfOne(Run(START, events), e);
    ApartOneMore(START, events, e);
  }

  lemma {:induction false} ApartOneMore(s: State, events: seq<Event>, e: Event)
    requires AlwaysApart(s, events, RID)
    ensures Apart(Apply(Run(s, events), e), RID) ==> AlwaysApart(s, events + [e], RID)
    decreases |events|
  {
    hide Apply, Apart;
    if events == [] {
      assert AlwaysApart(Apply(s, e), [], RID) == Apart(Apply(s, e), RID);
    } else {
      ApartOneMore(Apply(s, events[0]), events[1..], e);
      assert (events + [e])[1..] == events[1..] + [e];
    }
  }

  /** A confirmation of the response, up to the pipeline it starts. */
  lemma {:induction false} ConfirmStep(s: State, i: nat)
    requires Scene(s) && i < |s.threads|
    requires s.threads[i] == ConfirmSession(SID, RID, "", 0)
    ensures var s' := Apply(s, Tick(i, IDLE));
            Scene(s') && SamePair(s, s') && s'.store == s.store
            && s'.threads == s.threads[i := ConfirmResponse(SID, RID, "", 0)]
  {
  }

  lemma {:induction false} ConfirmResponseStep(s: State, i: nat)
    requires Scene(s) && i < |s.threads|
    requires s.threads[i] == ConfirmResponse(SID, RID, "", 0)
    requires TagOf(s.store.responses[RID], Status) == Some(PendingUpload)
    ensures var s' := Apply(s, Tick(i, IDLE));
            Scene(s') && s'.store == s.store && s'.threads == s.threads[i := ConfirmObject(SID, RID)]
  {
  }

  lemma {:induction false} ConfirmObjectStep(s: State, i: nat)
    requires Scene(s) && i < |s.threads| && s.threads[i] == ConfirmObject(SID, RID)
    ensures var s' := Apply(s, Tick(i, IDLE));
            Scene(s') && s'.threads == s.threads[i := ConfirmPending(SID, RID)]
            && s'.store.evaluations == s.store.evaluations
            && TagOf(s'.store.responses[RID], TranscriptionStatus) == Some(Queued)
  {
  }

  lemma {:induction false} ConfirmPendingStep(s: State, i: nat)
    requires Scene(s) && i < |s.threads| && s.threads[i] == ConfirmPending(SID, RID)
    requires s.store.evaluations == map[]
    ensures var s' := Apply(s, Tick(i, EARLY));
            Scene(s') && s'.threads == s.threads[i := ConfirmLaunch(SID, RID)]
            && s'.store.responses == s.store.responses && SID in s'.store.evaluations
  {
  }

  lemma {:induction false} ConfirmLaunchStep(s: State, i: nat)
    requires Scene(s) && i < |s.threads| && s.threads[i] == ConfirmLaunch(SID, RID)
    ensures var s' := Apply(s, Tick(i, IDLE));
            Scene(s') && s'.store == s.store && s'.threads == s.threads[i := Done] + [PipeResponse(RID)]
  {
  }

  lemma {:induction false} FinalizeStep(s: State, i: nat)
    requires Scene(s) && i < |s.threads| && s.threads[i] == FinalizeSession(SID)
    ensures var s' := Apply(s, Tick(i, IDLE));
            Scene(s') && s'.store == s.store && s'.threads == s.threads[i := FinalizeUpdate(SID)]
  {
  }

  lemma {:induction false} FinalizeUpdateStep(s: State, i: nat)
    requires Scene(s) && i < |s.threads| && s.threads[i] == FinalizeUpdate(SID)
    ensures var s' := Apply(s, Tick(i, IDLE));
            Scene(s') && s'.store.responses == s.store.responses && s'.store.evaluations == s.store.evaluations
            && s'.threads == s.threads[i := FinalizeLatest(SID)]
  {
  }

  lemma {:induction false} FinalizeLatestStep(s: State, i: nat)
    requires Scene(s) && i < |s.threads| && s.threads[i] == FinalizeLatest(SID)
    requires TagOf(s.store.responses[RID], TranscriptionStatus) == Some(Queued)
    ensures var s' := Apply(s, Tick(i, IDLE));
            Scene(s') && s'.store == s.store && s'.threads == s.threads[i := PollSession(SID, false)] + [PipeResponse(RID)]
  {
    LatestIsOnly(s.store, SID, RID);
  }

  /** A pipeline up to speech recognition. */
  lemma {:induction false} PipeResponseStep(s: State, i: nat)
    requires Scene(s) && i < |s.threads| && s.threads[i] == PipeResponse(RID)
    ensures var s' := Apply(s, Tick(i, IDLE));
            Scene(s') && s'.store == s.store && s'.threads == s.threads[i := PipeSession(RID, SID)]
  {
  }

  lemma {:induction false} PipeSessionStep(s: State, i: nat)
    requires Scene(s) && i < |s.threads| && s.threads[i] == PipeSession(RID, SID)
    ensures var s' := Apply(s, Tick(i, IDLE));
            Scene(s') && s'.store == s.store && s'.threads == s.threads[i := PipeMark(RID, SID)]
  {
  }

  lemma {:induction false} PipeMarkStep(s: State, i: nat)
    requires Scene(s) && i < |s.threads| && s.threads[i] == PipeMark(RID, SID)
    ensures var s' := Apply(s, Tick(i, IDLE));
            Scene(s') && SamePair(s, s') && s'.threads == s.threads[i := PipeProcessing(RID, SID)]
  {
  }

  lemma {:induction false} PipeProcessingStep(s: State, i: nat)
    requires Scene(s) && SID in s.store.evaluations && i < |s.threads| && s.threads[i] == PipeProcessing(RID, SID)
    ensures var s' := Apply(s, Tick(i, IDLE));
            Scene(s') && SamePair(s, s') && s'.threads == s.threads[i := PipeListen(RID, SID)]
  {
    hide IsReady, TranscriptOf, OnlyResponse;
    ProcessingCall(s);
    SameTranscript(s.store, Apply(s, Tick(i, IDLE)).store, SID, RID);
  }

  lemma {:induction false} ProcessingCall(s: State)
    requires Scene(s) && SID in s.store.evaluations
    ensures var store' := After(s.store, PutEvaluation(SID, BusyPatch(RID, Processing), "f", s.clock));
            && store'.responses == s.store.responses && store'.sessions == s.store.sessions
            && SID in store'.evaluations && IsNewEvaluationId(store', "f")
            && (CardAt(s.store, SID) ==>
                  CardAt(store', SID) && store'.evaluations[SID][CoachCard] == s.store.evaluations[SID][CoachCard])
  {
  }

  lemma {:induction false} PipeListenStep(s: State, i: nat, text: string)
    requires Scene(s) && i < |s.threads| && s.threads[i] == PipeListen(RID, SID)
    ensures var s' := Apply(s, Tick(i, Hears(text)));
            Scene(s') && s'.store.evaluations == s.store.evaluations && TranscriptOf(s'.store, RID) == text
            && s'.threads == s.threads[i := PipeCoach(RID, SID, text, false)]
  {
    hide MayOpen, MayConfirm, ShouldStart, ShouldRetry, IsReady, LastPatch, BusyPatch, FailedPatch, ConfirmedPatch, OpenRow;
  }

  lemma {:induction false} PipeCoachStep(s: State, i: nat, text: string)
    requires Scene(s) && SID in s.store.evaluations && i < |s.threads| && s.threads[i] == PipeCoach(RID, SID, text, false)
    ensures var s' := Apply(s, Tick(i, Judges("")));
            Scene(s') && s'.store.responses == s.store.responses && s'.threads == s.threads[i := Done]
            && IsReady(Lookup(s'.store.evaluations, SID))
            && s'.store.evaluations[SID][CoachCard].card == Card(Spoken(text), "")
  {
    CoachStep(s, i, SID, RID, text, false, "");
  }

  /** get_feedback on a ready evaluation, up to its second look at it. */
  lemma {:induction false} PollSessionStep(s: State, i: nat)
    requires Scene(s) && i < |s.threads| && s.threads[i] == PollSession(SID, true)
    ensures var s' := Apply(s, Tick(i, IDLE));
            Scene(s') && s'.store == s.store && s'.threads == s.threads[i := PollLatest(SID, true)]
  {
  }

  lemma {:induction false} PollLatestStep(s: State, i: nat)
    requires Scene(s) && i < |s.threads| && s.threads[i] == PollLatest(SID, true)
    ensures var s' := Apply(s, Tick(i, IDLE));
            Scene(s') && s'.store == s.store
            && s'.threads == s.threads[i := PollEvaluation(SID, Latest(s.store.responses, SID), true)]
  {
  }

  lemma {:induction false} PollEvaluationStep(s: State, i: nat, response: Option<Row>)
    requires Scene(s) && i < |s.threads| && s.threads[i] == PollEvaluation(SID, response, true)
    requires IsReady(Lookup(s.store.evaluations, SID))
    ensures var s' := Apply(s, Tick(i, IDLE));
            Scene(s') && s'.store == s.store && s'.threads == s.threads[i := ShowEvaluation(SID)]
  {
  }

  lemma {:induction false} ShowEvaluationStep(s: State, i: nat)
    requires Scene(s) && i < |s.threads| && s.threads[i] == ShowEvaluation(SID) && CardAt(s.store, SID)
    ensures var s' := Apply(s, Tick(i, IDLE));
            Scene(s') && s'.store == s.store
            && s'.threads == s.threads[i := ShowLatest(SID, s.store.evaluations[SID][CoachCard].card)]
  {
  }

  lemma {:induction false} ShowLatestStep(s: State, i: nat, card: Card)
    requires Scene(s) && i < |s.threads| && s.threads[i] == ShowLatest(SID, card)
    ensures var s' := Apply(s, Tick(i, IDLE));
            s'.store == s.store
            && s'.threads == s.threads[i := Shown(SID, Feedback(TranscriptOf(s.store, RID), card))]
  {
    LatestIsOnly(s.store, SID, RID);
  }

  // ---------------------------------------------------------------------------------------
  // Runs from the start

  /** The events lead to the scene with these threads, and never to two pipelines in flight. */
  ghost predicate LeadsTo(events: seq<Event>, threads: seq<Thread>) {
    && AlwaysApart(START, events, RID)
    && Scene(Run(START, events)) && SID in Run(START, events).store.evaluations
    && Run(START, events).threads == threads
  }

  lemma {:induction false} RequestStep(s: State, t: Thread)
    requires IsRequest(t)
    ensures Apply(s, Request(t)) == s.(threads := s.threads + [t])
    ensures Scene(s) ==> Scene(Apply(s, Request(t)))
  {
  }

  /** A session and its response. */
  lemma {:induction false} Opened() returns (events: seq<Event>)
    ensures AlwaysApart(START, events, RID)
    ensures var s := Run(START, events);
            && Scene(s) && s.store.evaluations == map[] && s.threads == [Done, Done]
            && TagOf(s.store.responses[RID], Status) == Some(PendingUpload)
  {
    hide Apply, Scene;
    var e0, e1 := Request(NewSession(map[])), Tick(0, IDLE.(newId := SID));
    var e2, e3, e4 := Request(OpenSession(SID, "", 0, 0)), Tick(1, IDLE), Tick(1, IDLE.(newId := RID));
    var s1 := Apply(START, e0);
    RequestStep(START, NewSession(map[]));
    var s2 := Apply(s1, e1);
    SessionStep(s1);
    var s3 := Apply(s2, e2);
    RequestStep(s2, OpenSession(SID, "", 0, 0));
    var s4 := Apply(s3, e3);
    OpenStep(s3);
    var s5 := Apply(s4, e4);
    CreateStep(s4);
    events := [e0, e1, e2, e3, e4];
    RunOfThree(s2, e2, e3, e4);
    assert events[1..][1..] == [e2, e3, e4] && events[1..][0] == e1;
    assert Run(START, events) == Run(s1, events[1..]) == Run(s2, [e2, e3, e4]);
    assert [e2, e3, e4][1..] == [e3, e4] && [e3, e4][1..] == [e4] && [e4][1..] == [];
    assert AlwaysApart(s5, [], RID) && AlwaysApart(s4, [e4], RID) && AlwaysApart(s3, [e3, e4], RID);
    assert AlwaysApart(s2, [e2, e3, e4], RID) && AlwaysApart(s1, events[1..], RID);
  }

  lemma {:induction false} SessionStep(s: State)
    requires s == START.(threads := [NewSession(map[])])
    ensures var s' := Apply(s, Tick(0, IDLE.(newId := SID)));
            && s'.threads == [Done] && SID in s'.store.sessions && s'.store.responses == map[] && s'.store.evaluations == map[]
            && TagOf(s'.store.sessions[SID], Status) == Some(Active)
            && MaxDuration(s'.store.sessions[SID]) == 60
  {
  }

  lemma {:induction false} OpenStep(s: State)
    requires s.threads == [Done, OpenSession(SID, "", 0, 0)] && SID in s.store.sessions
    requires TagOf(s.store.sessions[SID], Status) == Some(Active)
    requires MaxDuration(s.store.sessions[SID]) == 60
    ensures var s' := Apply(s, Tick(1, IDLE));
            s'.store == s.store && s'.threads == [Done, OpenCreate(SID, "", 0, 0)]
  {
  }

  lemma {:induction false} CreateStep(s: State)
    requires s.threads == [Done, OpenCreate(SID, "", 0, 0)] && SID in s.store.sessions
    requires s.store.responses == map[] && s.store.evaluations == map[]
    ensures var s' := Apply(s, Tick(1, IDLE.(newId := RID)));
            && Scene(s') && s'.store.evaluations == map[] && s'.threads == [Done, Done]
            && TagOf(s'.store.responses[RID], Status) == Some(PendingUpload)
  {
  }

  /** The response confirmed: its first pipeline waits. */
  lemma {:induction false} Confirmed() returns (events: seq<Event>)
    ensures LeadsTo(events, [Done, Done, Done, PipeResponse(RID)])
    ensures TagOf(Run(START, events).store.responses[RID], TranscriptionStatus) == Some(Queued)
  {
    hide Apply, Scene, Apart, AlwaysApart, Run, OnlyResponse;
    events := Opened();
    var s := Run(START, events);
    RequestStep(s, ConfirmSession(SID, RID, "", 0));
    events, s := Next1(events, Request(ConfirmSession(SID, RID, "", 0)));
    ConfirmStep(s, 2);
    events, s := Next1(events, Tick(2, IDLE));
    ConfirmResponseStep(s, 2);
    events, s := Next1(events, Tick(2, IDLE));
    ConfirmObjectStep(s, 2);
    events, s := Next1(events, Tick(2, IDLE));
    ConfirmPendingStep(s, 2);
    events, s := Next1(events, Tick(2, EARLY));
    ConfirmLaunchStep(s, 2);
    events, s := Next1(events, Tick(2, IDLE));
  }

  /** One more event after which at most thread 3 is in flight. */
  lemma {:induction false} Next1(events: seq<Event>, e: Event) returns (more: seq<Event>, s: State)
    requires AlwaysApart(START, events, RID)
    requires var threads := Apply(Run(START, events), e).threads;
             forall i, j :: 0 <= i < j < |threads| ==> !InFlight(threads[i], RID) || !InFlight(threads[j], RID)
    ensures more == events + [e] && s == Apply(Run(START, events), e) == Run(START, more)
    ensures AlwaysApart(START, more, RID)
  {
    hide Apply;
    OneMore(events, e);
    more, s := events + [e], Apply(Run(START, events), e);
  }

  /** And the session finalized: two pipelines of the response wait. */
  lemma {:induction false} TwoPipelines() returns (events: seq<Event>)
    ensures LeadsTo(events, [Done, Done, Done, PipeResponse(RID), PollSession(SID, false), PipeResponse(RID)])
  {
    hide Apply, Apart, AlwaysApart, Run, OnlyResponse;
    events := Confirmed();
    var s := Run(START, events);
    RequestStep(s, FinalizeSession(SID));
    events, s := Next1(events, Request(FinalizeSession(SID)));
    FinalizeStep(s, 4);
    events, s := Next1(events, Tick(4, IDLE));
    FinalizeUpdateStep(s, 4);
    events, s := Next1(events, Tick(4, IDLE));
    FinalizeLatestStep(s, 4);
    events, s := Next1(events, Tick(4, IDLE));
  }

  /** A waiting pipeline goes up to speech recognition. */
  lemma {:induction false} Listening(events: seq<Event>, i: nat, threads: seq<Thread>) returns (more: seq<Event>)
    requires LeadsTo(events, threads) && i < |threads| && threads[i] == PipeResponse(RID)
    requires forall k :: 0 <= k < |threads| ==> !InFlight(threads[k], RID)
    ensures LeadsTo(more, threads[i := PipeListen(RID, SID)])
    ensures SamePair(Run(START, events), Run(START, more))
  {
    hide Apply, Apart, AlwaysApart, Run, OnlyResponse, Scene, TranscriptOf;
    more := events;
    var s := Run(START, events);
    PipeResponseStep(s, i);
    more, s := Next1(more, Tick(i, IDLE));
    PipeSessionStep(s, i);
    more, s := Next1(more, Tick(i, IDLE));
    PipeMarkStep(s, i);
    more, s := Next1(more, Tick(i, IDLE));
    PipeProcessingStep(s, i);
    more, s := Next1(more, Tick(i, IDLE));
  }

  /** Pipelines that never overlap are not enough: a pipeline that listens between the two reads
      of get_feedback puts its transcript beside the other's card. */
  lemma {:induction false} LateListenMixes() returns (events: seq<Event>)
    ensures AlwaysApart(START, events, RID) && OnlyResponse(Run(START, events).store, SID, RID)
    ensures 6 < |Run(START, events).threads|
    ensures Run(START, events).threads[6] == Shown(SID, Feedback("b", Card("a", "")))
  {
    hide Apply, Apart, AlwaysApart, Run, OnlyResponse, Scene, TranscriptOf;
    events := CardIsTaken();
    var s := Run(START, events);
    events := Listening(events, 5, s.threads);
    var s1 := Run(START, events);
    PipeListenStep(s1, 5, "b");
    events, s1 := Next1(events, Tick(5, Hears("b")));
    ShowLatestStep(s1, 6, Card("a", ""));
    SceneIsOnly(s1);
    var s2 := Apply(s1, Tick(6, IDLE));
    SameTranscript(s1.store, s2.store, SID, RID);
    events, s1 := Next1(events, Tick(6, IDLE));
  }

  lemma {:induction false} SceneIsOnly(s: State)
    requires Scene(s)
    ensures OnlyResponse(s.store, SID, RID)
  {
  }

  /** The first pipeline has finished. */
  lemma {:induction false} FirstIsDone() returns (events: seq<Event>)
    ensures LeadsTo(events, [Done, Done, Done, Done, PollSession(SID, false), PipeResponse(RID)])
    ensures var evaluations := Run(START, events).store.evaluations;
            IsReady(Lookup(evaluations, SID)) && evaluations[SID][CoachCard].card == Card("a", "")
  {
    hide Apply, Apart, AlwaysApart, Run, OnlyResponse, Scene, TranscriptOf, IsReady;
    events := TwoPipelines();
    events := Listening(events, 3, Run(START, events).threads);
    var s := Run(START, events);
    PipeListenStep(s, 3, "a");
    events, s := Next1(events, Tick(3, Hears("a")));
    PipeCoachStep(s, 3, "a");
    events, s := Next1(events, Tick(3, Judges("")));
  }

  /** And get_feedback has taken its card. */
  lemma {:induction false} CardIsTaken() returns (events: seq<Event>)
    ensures LeadsTo(events, [Done, Done, Done, Done, PollSession(SID, false), PipeResponse(RID),
                             ShowLatest(SID, Card("a", ""))])
  {
    hide Apply, Apart, AlwaysApart, Run, OnlyResponse, Scene, TranscriptOf, IsReady;
    events := FirstIsDone();
    var s := Run(START, events);
    ReadyHasCard(s);
    RequestStep(s, PollSession(SID, true));
    events, s := Next1(events, Request(PollSession(SID, true)));
    PollSessionStep(s, 6);
    events, s := Next1(events, Tick(6, IDLE));
    PollLatestStep(s, 6);
    var latest := Latest(s.store.responses, SID);
    events, s := Next1(events, Tick(6, IDLE));
    PollEvaluationStep(s, 6, latest);
    events, s := Next1(events, Tick(6, IDLE));
    ShowEvaluationStep(s, 6);
    events, s := Next1(events, Tick(6, IDLE));
  }

  lemma {:induction false} ReadyHasCard(s: State)
    requires IsReady(Lookup(s.store.evaluations, SID))
    ensures CardAt(s.store, SID)
  {
  }

  lemma {:induction false} Next0(events: seq<Event>, e: Event) returns (more: seq<Event>, s: State)
    ensures more == events + [e] && s == Apply(Run(START, events), e) == Run(START, more)
  {
    hide Apply;
    RunConcat(START, events, [e]);
    RunOfOne(Run(START, events), e);
    more, s := events + [e], Apply(Run(START, events), e);
  }

  /** Two pipelines can come to listen to one response at once. */
  lemma {:induction false} BothListening() returns (events: seq<Event>)
    ensures var s := Run(START, events);
            Scene(s) && 5 < |s.threads| && s.threads[3] == s.threads[5] == PipeListen(RID, SID)
  {
    hide Apply, Apart, AlwaysApart, Run, OnlyResponse, Scene, TranscriptOf;
    events := TwoPipelines();
    events := Listening(events, 3, Run(START, events).threads);
    var s := Run(START, events);
    PipeResponseStep(s, 5);
    events, s := Next0(events, Tick(5, IDLE));
    PipeSessionStep(s, 5);
    events, s := Next0(events, Tick(5, IDLE));
    PipeMarkStep(s, 5);
    events, s := Next0(events, Tick(5, IDLE));
    PipeProcessingStep(s, 5);
    events, s := Next0(events, Tick(5, IDLE));
  }

  /** And then feedback can be mixed. */
  lemma {:induction false} OverlapHappens() returns (events: seq<Event>)
    ensures IsMixed(Run(START, events).store, SID) && OnlyResponse(Run(START, events).store, SID, RID)
  {
    hide Apply, Run, OnlyResponse, TranscriptOf, IsMixed, IsNewEvaluationId;
    events := BothListening();
    var rest := OverlapMixesFeedback(Run(START, events), 3, 5, SID, RID);
    RunConcat(START, events, rest);
    events := events + rest;
  }

  /** Everything that stored feedback shows, a get_feedback with no other step between its reads
      returns. */
  lemma {:induction false} StoredIsServed(s: State, sid: Key) returns (events: seq<Event>)
    requires StoredFeedback(s.store, sid).Some?
    ensures var s' := Run(s, events);
            && s'.store == s.store
            && s'.threads == s.threads + [Shown(sid, StoredFeedback(s.store, sid).value)]
  {
    hide Apply, IsReady;
    var i := |s.threads|;
    var first, tick := Request(PollSession(sid, true)), Tick(i, IDLE);
    RequestStep(s, PollSession(sid, true));
    var s1 := Apply(s, first);
    ReadStep(s1, i);
    var s2 := Apply(s1, tick);
    ReadStep(s2, i);
    var s3 := Apply(s2, tick);
    ReadStep(s3, i);
    var s4 := Apply(s3, tick);
    ReadStep(s4, i);
    var s5 := Apply(s4, tick);
    ReadStep(s5, i);
    RunOfThree(s, first, tick, tick);
    RunOfThree(s3, tick, tick, tick);
    events := [first, tick, tick] + [tick, tick, tick];
    RunConcat(s, [first, tick, tick], [tick, tick, tick]);
  }

  /** One read of a get_feedback whose evaluation is ready. */
  lemma {:induction false} ReadStep(s: State, i: nat)
    requires i < |s.threads|
    requires var t := s.threads[i];
             && (t.PollSession? || t.PollLatest? || t.PollEvaluation? || t.ShowEvaluation? || t.ShowLatest?)
             && (t.PollSession? || t.PollLatest? || t.PollEvaluation? ==> t.feedback)
             && StoredFeedback(s.store, t.sid).Some?
    ensures var (t, s') := (s.threads[i], Apply(s, Tick(i, IDLE)));
            && s'.store == s.store
            && (t.PollSession? ==> s'.threads == s.threads[i := PollLatest(t.sid, true)])
            && (t.PollLatest? ==> s'.threads == s.threads[i := PollEvaluation(t.sid, Latest(s.store.responses, t.sid), true)])
            && (t.PollEvaluation? ==> s'.threads == s.threads[i := ShowEvaluation(t.sid)])
            && (t.ShowEvaluation? ==>
                  s'.threads == s.threads[i := ShowLatest(t.sid, s.store.evaluations[t.sid][CoachCard].card)])
            && (t.ShowLatest? && t.card == s.store.evaluations[t.sid][CoachCard].card ==>
                  s'.threads == s.threads[i := Shown(t.sid, StoredFeedback(s.store, t.sid).value)])
  {
  }
}
