/** get_feedback makes its reads one after the other, and pipelines may step in between: exactly
    when the card and the transcript that it returns belong together. */
module ForgeReads {
  import opened Wrappers
  import opened PlainStore
  import opened ForgeService
  import opened ForgeProgress
  import opened ForgeFeedback

  /** The state after the first k events. */
  ghost function At(events: seq<Event>, k: nat): State
    requires k <= |events|
  {
    Run(START, events[..k])
  }

  lemma {:induction false} AtStep(events: seq<Event>, k: nat)
    requires k < |events|
    ensures At(events, k + 1) == Apply(At(events, k), events[k])
  {
    hide Apply;
    RunConcat(START, events[..k], [events[k]]);
    assert events[..k] + [events[k]] == events[..k + 1];
    var s := At(events, k);
    assert Run(s, [events[k]]) == Run(Apply(s, events[k]), []);
  }

  lemma {:induction false} AtIsOk(events: seq<Event>, k: nat)
    requires k <= |events|
    ensures Inv(At(events, k))
  {
    hide Inv;
    StartIsOk();
    RunKeepsInv(START, events[..k]);
  }

  /** Event k moves thread i. */
  ghost predicate Moves(events: seq<Event>, k: nat, i: nat)
    requires k < |events|
  {
    && events[k].Tick? && events[k].i == i && i < |At(events, k).threads|
    && IsTick(At(events, k), i, events[k].world)
  }

  ghost function Moved(events: seq<Event>, k: nat, i: nat): Thread
    requires k < |events| && Moves(events, k, i)
  {
    var s := At(events, k);
    Next(s.threads[i], AnswerTo(s.store, CallOf(s.threads[i], s.clock, events[k].world)), events[k].world).0
  }

  /** A thread past the readiness check of get_feedback came there by a step of its own. */
  lemma {:induction false} Entered(events: seq<Event>, n: nat, i: nat) returns (k: nat)
    requires n <= |events| && i < |At(events, n).threads|
    requires var t := At(events, n).threads[i]; t.ShowEvaluation? || t.ShowLatest? || t.Shown?
    ensures k < n && Moves(events, k, i)
    ensures var t := At(events, n).threads[i]; At(events, k).threads[i] != t && Moved(events, k, i) == t
  {
    hide Next, CallOf, IsTick, After, Answer;
    assert events[..0] == [];
    AtStep(events, n - 1);
    var s, e := At(events, n - 1), events[n - 1];
    var t := At(events, n).threads[i];
    OnlyOwnSteps(s, e, i);
    if i < |s.threads| && s.threads[i] == t {
      k := Entered(events, n - 1, i);
    } else {
      k := n - 1;
    }
  }

  /** A step moves its own thread; what it starts is a pipeline. */
  lemma OnlyOwnSteps(s: State, e: Event, i: nat)
    requires i < |Apply(s, e).threads|
    ensures var t := Apply(s, e).threads[i];
            || (i < |s.threads| && s.threads[i] == t)
            || t.PipeResponse? || IsRequest(t)
            || (&& i < |s.threads| && e.Tick? && e.i == i && IsTick(s, i, e.world)
                && Next(s.threads[i], AnswerTo(s.store, CallOf(s.threads[i], s.clock, e.world)), e.world).0 == t)
  {
  }

  /** The three reads of get_feedback that decide what it returns, as steps of its thread: the one
      that finds the evaluation ready, the one that takes its card, and the one that takes the
      transcript. */
  ghost predicate AreReads(events: seq<Event>, i: nat, sid: Key, shown: Feedback, p: nat, q: nat, r: nat)
  {
    && p < q < r < |events|
    && Moves(events, p, i) && Moves(events, q, i) && Moves(events, r, i)
    && At(events, p).threads[i].PollEvaluation? && At(events, p).threads[i].feedback && At(events, p).threads[i].sid == sid
    && At(events, q).threads[i] == ShowEvaluation(sid)
    && At(events, r).threads[i] == ShowLatest(sid, shown.card)
    && IsReady(Lookup(At(events, p).store.evaluations, sid))
    && CardAt(At(events, q).store, sid)
    && shown.card == At(events, q).store.evaluations[sid][CoachCard].card
    && shown.transcript == LatestText(At(events, r).store, sid)
  }

  lemma ComesFrom(store: Plain, clock: nat, t: Thread, w: World)
    ensures var t' := Next(t, AnswerTo(store, CallOf(t, clock, w)), w).0;
            && (t'.ShowEvaluation? ==>
                  t.PollEvaluation? && t.feedback && t.sid == t'.sid && IsReady(Lookup(store.evaluations, t.sid)))
            && (t'.ShowLatest? ==>
                  t == ShowEvaluation(t'.sid) && CardAt(store, t.sid) && t'.card == store.evaluations[t.sid][CoachCard].card)
            && (t'.Shown? && t' != t ==>
                  t == ShowLatest(t'.sid, t'.shown.card) && t'.shown.transcript == LatestText(store, t.sid))
  {
  }

  /** Every feedback that is returned was read in three steps. */
  lemma {:induction false} FeedbackWasRead(events: seq<Event>, i: nat, sid: Key, shown: Feedback)
    returns (p: nat, q: nat, r: nat)
    requires i < |Run(START, events).threads| && Run(START, events).threads[i] == Shown(sid, shown)
    ensures AreReads(events, i, sid, shown, p, q, r)
  {
    hide Next, CallOf, IsTick, After, Answer, IsReady, Apply;
    assert events[..|events|] == events;
    r := Entered(events, |events|, i);
    From(events, r, i);
    q := Entered(events, r, i);
    From(events, q, i);
    p := Entered(events, q, i);
    From(events, p, i);
  }

  lemma {:induction false} From(events: seq<Event>, k: nat, i: nat)
    requires k < |events| && Moves(events, k, i)
    ensures var (store, t, t') := (At(events, k).store, At(events, k).threads[i], Moved(events, k, i));
            && (t'.ShowEvaluation? ==>
                  t.PollEvaluation? && t.feedback && t.sid == t'.sid && IsReady(Lookup(store.evaluations, t.sid)))
            && (t'.ShowLatest? ==>
                  t == ShowEvaluation(t'.sid) && CardAt(store, t.sid) && t'.card == store.evaluations[t.sid][CoachCard].card)
            && (t'.Shown? && t' != t ==>
                  t == ShowLatest(t'.sid, t'.shown.card) && t'.shown.transcript == LatestText(store, t.sid))
  {
    hide Next, CallOf, After, Answer, IsReady, Apply, Latest;
    var s := At(events, k);
    ComesFrom(s.store, s.clock, s.threads[i], events[k].world);
  }

  /** Once the evaluation is found ready, get_feedback does not fail for want of a card. */
  lemma {:induction false} FeedbackHasCard(events: seq<Event>, k: nat, i: nat)
    requires k < |events| && Moves(events, k, i) && At(events, k).threads[i].ShowEvaluation?
    ensures Moved(events, k, i).ShowLatest?
  {
    hide CallOf, StoreOk, Run, Answer, Owes;
    AtIsOk(events, k);
    var s := At(events, k);
    AnswerFits(s.store, s.clock, s.threads[i], events[k].world);
  }

  // ---------------------------------------------------------------------------------------
  // What happens to the stored pair meanwhile

  /** The transcript that a step writes, if it is speech recognition of the response. */
  ghost function Hearing(s: State, e: Event, rid: Key): Option<string> {
    if e.Tick? && IsTick(s, e.i, e.world) && s.threads[e.i].PipeListen? && s.threads[e.i].rid == rid && !e.world.raises
    then Some(if e.world.asr.Heard? then e.world.asr.text else "")
    else None
  }

  /** The last transcript that is written from state `from` on and before state `to`. */
  ghost function LastHearing(events: seq<Event>, from: nat, to: nat, rid: Key): Option<string>
    requires to <= |events|
  {
    if to <= from then None
    else if Hearing(At(events, to - 1), events[to - 1], rid).Some? then Hearing(At(events, to - 1), events[to - 1], rid)
    else LastHearing(events, from, to - 1, rid)
  }

  lemma OnlyListening(t: Thread, clock: nat, w: World, rid: Key)
    ensures var call := CallOf(t, clock, w);
            var writes := call.Some? && call.value.PatchResponse? && call.value.id == rid && Transcript in call.value.patch;
            && (writes <==> t.PipeListen? && t.rid == rid && !w.raises)
            && (writes ==> TextOf(call.value.patch, Transcript) == if w.asr.Heard? then w.asr.text else "")
            && (call.Some? && call.value.PostResponse? ==> Transcript !in call.value.row)
  {
  }

  lemma {:induction false} StepHears(s: State, e: Event, sid: Key, rid: Key)
    requires rid in s.store.responses
    ensures TranscriptOf(Apply(s, e).store, rid)
         == if Hearing(s, e, rid).Some? then Hearing(s, e, rid).value else TranscriptOf(s.store, rid)
  {
    hide CallOf, Next, After, Answer, IsCall, TranscriptOf;
    if e.Tick? && IsTick(s, e.i, e.world) {
      var call := CallOf(s.threads[e.i], s.clock, e.world);
      OnlyListening(s.threads[e.i], s.clock, e.world, rid);
      if call.Some? {
        CallTouches(s.store, call.value, s.clock, sid, rid);
      }
    }
  }

  lemma {:induction false} TranscriptSince(events: seq<Event>, from: nat, to: nat, sid: Key, rid: Key)
    requires from <= to <= |events| && rid in At(events, from).store.responses
    ensures rid in At(events, to).store.responses
    ensures var heard := LastHearing(events, from, to, rid);
            TranscriptOf(At(events, to).store, rid)
            == if heard.Some? then heard.value else TranscriptOf(At(events, from).store, rid)
  {
    hide Apply, Hearing, TranscriptOf, Inv, At;
    if from < to {
      TranscriptSince(events, from, to - 1, sid, rid);
      AtStep(events, to - 1);
      AtIsOk(events, to - 1);
      ApplyGrows(At(events, to - 1), events[to - 1]);
      StepHears(At(events, to - 1), events[to - 1], sid, rid);
    }
  }

  /** Only a write that makes the evaluation ready changes its card. */
  lemma CardsAreGood(t: Thread, clock: nat, w: World)
    ensures var call := CallOf(t, clock, w);
            call.Some? && call.value.PutEvaluation? ==>
              && TagOf(call.value.patch, Status).Some?
              && (CoachCard in call.value.patch ==> IsGood(call.value.patch) && HasCard(call.value.patch))
  {
  }

  lemma PutKeepsCard(store: Plain, call: Call, sid: Key)
    requires CardAt(store, sid)
    requires call.PutEvaluation? ==>
      TagOf(call.patch, Status).Some? && (CoachCard in call.patch ==> IsGood(call.patch) && HasCard(call.patch))
    requires !IsReady(Lookup(After(store, call).evaluations, sid))
    ensures CardAt(After(store, call), sid)
    ensures After(store, call).evaluations[sid][CoachCard] == store.evaluations[sid][CoachCard]
  {
  }

  lemma {:induction false} StepKeepsCard(s: State, e: Event, sid: Key)
    requires CardAt(s.store, sid) && !IsReady(Lookup(Apply(s, e).store.evaluations, sid))
    ensures CardAt(Apply(s, e).store, sid)
    ensures Apply(s, e).store.evaluations[sid][CoachCard] == s.store.evaluations[sid][CoachCard]
  {
    hide CallOf, Next, After, Answer, IsCall, IsReady, CardAt;
    if e.Tick? && IsTick(s, e.i, e.world) {
      var call := CallOf(s.threads[e.i], s.clock, e.world);
      CardsAreGood(s.threads[e.i], s.clock, e.world);
      if call.Some? {
        PutKeepsCard(s.store, call.value, sid);
      }
    }
  }

  /** The last state up to q in which the evaluation was ready. */
  ghost function LastReady(events: seq<Event>, sid: Key, q: nat): (k: nat)
    requires q <= |events|
    ensures k <= q
  {
    if q == 0 || IsReady(Lookup(At(events, q).store.evaluations, sid)) then q else LastReady(events, sid, q - 1)
  }

  /** Since then the card is the same. */
  lemma {:induction false} CardSince(events: seq<Event>, sid: Key, p: nat, q: nat)
    requires p <= q <= |events| && IsReady(Lookup(At(events, p).store.evaluations, sid))
    ensures var k := LastReady(events, sid, q);
            && p <= k && IsReady(Lookup(At(events, k).store.evaluations, sid))
            && CardAt(At(events, k).store, sid) && CardAt(At(events, q).store, sid)
            && At(events, q).store.evaluations[sid][CoachCard] == At(events, k).store.evaluations[sid][CoachCard]
  {
    hide Apply, At;
    if !IsReady(Lookup(At(events, q).store.evaluations, sid)) {
      CardSince(events, sid, p, q - 1);
      AtStep(events, q - 1);
      StepKeepsCard(At(events, q - 1), events[q - 1], sid);
    }
  }

  lemma {:induction false} ApartBefore(s: State, events: seq<Event>, k: nat, rid: Key)
    requires AlwaysApart(s, events, rid) && k <= |events|
    ensures AlwaysApart(s, events[..k], rid)
    decreases k
  {
    hide Apply, Apart;
    if k > 0 {
      ApartBefore(Apply(s, events[0]), events[1..], k - 1, rid);
      assert events[..k][1..] == events[1..][..k - 1];
    }
  }

  /** Speech recognition wrote another text into the response after the card had last been ready
      and before the transcript was read. */
  ghost predicate IsOvertaken(events: seq<Event>, k: nat, r: nat, rid: Key)
    requires k <= r <= |events|
  {
    var heard := LastHearing(events, k, r, rid);
    heard.Some? && Spoken(heard.value) != Spoken(TranscriptOf(At(events, k).store, rid))
  }

  /** In a session with one response whose pipelines do not overlap, the card that get_feedback
      returns was computed from the transcript beside it, unless speech recognition overtook it:
      exactly then the two do not belong together. */
  lemma {:induction false} FeedbackIsCoherent(events: seq<Event>, i: nat, sid: Key, shown: Feedback, rid: Key)
    requires i < |Run(START, events).threads| && Run(START, events).threads[i] == Shown(sid, shown)
    requires OnlyResponse(Run(START, events).store, sid, rid) && AlwaysApart(START, events, rid)
    ensures exists p: nat, q: nat, r: nat :: AreReads(events, i, sid, shown, p, q, r)
    ensures forall p: nat, q: nat, r: nat :: AreReads(events, i, sid, shown, p, q, r) ==>
      && p <= LastReady(events, sid, q)
      && (shown.card.heard == Spoken(shown.transcript) <==> !IsOvertaken(events, LastReady(events, sid, q), r, rid))
  {
    hide Apply, Inv, IsReady, Apart, LastHearing, OnlyResponse, TranscriptOf, Moves, AlwaysApart, LastReady, At;
    var p0, q0, r0 := FeedbackWasRead(events, i, sid, shown);
    forall p: nat, q: nat, r: nat | AreReads(events, i, sid, shown, p, q, r)
      ensures p <= LastReady(events, sid, q)
      ensures shown.card.heard == Spoken(shown.transcript) <==> !IsOvertaken(events, LastReady(events, sid, q), r, rid)
    {
      PairIsRead(events, i, sid, shown, rid, p, q, r);
    }
  }

  lemma {:induction false} PairIsRead(events: seq<Event>, i: nat, sid: Key, shown: Feedback, rid: Key,
                                      p: nat, q: nat, r: nat)
    requires AreReads(events, i, sid, shown, p, q, r)
    requires OnlyResponse(Run(START, events).store, sid, rid) && AlwaysApart(START, events, rid)
    ensures p <= LastReady(events, sid, q)
    ensures shown.card.heard == Spoken(shown.transcript) <==> !IsOvertaken(events, LastReady(events, sid, q), r, rid)
  {
    hide Apply, Inv, IsReady, Apart, LastHearing, TranscriptOf, Moves, OnlyResponse, AlwaysApart, At, LastReady;
    CardSince(events, sid, p, q);
    var k := LastReady(events, sid, q);
    OnlyResponseAt(events, k, sid, rid);
    OnlyResponseAt(events, r, sid, rid);
    ReadyHasResponse(events, k, sid, rid);
    TranscriptSince(events, k, r, sid, rid);
    LatestIsOnly(At(events, r).store, sid, rid);
    PairAt(events, k, sid, rid);
  }

  lemma {:induction false} OnlyResponseAt(events: seq<Event>, k: nat, sid: Key, rid: Key)
    requires k <= |events| && OnlyResponse(Run(START, events).store, sid, rid)
    ensures OnlyResponse(At(events, k).store, sid, rid)
  {
    hide Inv, Apply, OnlyResponse;
    AtIsOk(events, k);
    RunConcat(START, events[..k], events[k..]);
    assert events[..k] + events[k..] == events;
    RunGrows(At(events, k), events[k..]);
    InvHasStoreOk(At(events, k));
    OnlyBefore(At(events, k).store, Run(START, events).store, sid, rid);
  }

  lemma {:induction false} ReadyHasResponse(events: seq<Event>, k: nat, sid: Key, rid: Key)
    requires k <= |events| && CardAt(At(events, k).store, sid) && OnlyResponse(At(events, k).store, sid, rid)
    ensures rid in At(events, k).store.responses
  {
    hide Run;
    AtIsOk(events, k);
    var store := At(events, k).store;
    assert EvaluationOk(store, sid);
    var owner :| Belongs(store, owner, sid);
  }

  /** A ready card goes with the stored transcript. */
  lemma {:induction false} PairAt(events: seq<Event>, k: nat, sid: Key, rid: Key)
    requires k <= |events| && AlwaysApart(START, events, rid) && OnlyResponse(At(events, k).store, sid, rid)
    requires IsReady(Lookup(At(events, k).store.evaluations, sid))
    ensures At(events, k).store.evaluations[sid][CoachCard].card.heard == Spoken(TranscriptOf(At(events, k).store, rid))
  {
    hide Inv, AlwaysApart, Apart, OnlyResponse, Run, TranscriptOf;
    ApartBefore(START, events, k, rid);
    StartIsOk();
    StartIsCoherent(sid, rid);
    RunKeepsCoherent(START, events[..k], sid, rid);
  }

  /** In particular the two belong together when no speech recognition of the response falls
      between finding the evaluation ready and reading the transcript. */
  lemma {:induction false} QuietFeedbackIsCoherent(events: seq<Event>, i: nat, sid: Key, shown: Feedback, rid: Key,
                                                   p: nat, q: nat, r: nat)
    requires AreReads(events, i, sid, shown, p, q, r)
    requires OnlyResponse(Run(START, events).store, sid, rid) && AlwaysApart(START, events, rid)
    requires forall k :: p <= k < r ==> Hearing(At(events, k), events[k], rid).None?
    ensures shown.card.heard == Spoken(shown.transcript)
  {
    hide Apply, IsReady, Apart, Moves, OnlyResponse, AlwaysApart, At, Hearing, LastReady;
    PairIsRead(events, i, sid, shown, rid, p, q, r);
    NoHearing(events, LastReady(events, sid, q), r, rid);
  }

  lemma {:induction false} NoHearing(events: seq<Event>, from: nat, to: nat, rid: Key)
    requires to <= |events|
    requires forall k :: from <= k < to ==> Hearing(At(events, k), events[k], rid).None?
    ensures LastHearing(events, from, to, rid).None?
  {
    hide Hearing, At;
    if from < to {
      NoHearing(events, from, to - 1, rid);
    }
  }
}
