/** What the requests and pipelines of english_forge/service.py leave in the store, column by column. */
module ForgeFlow {
  import opened Wrappers
  import opened PlainStore
  import opened ForgeService
  import opened ForgeProgress
  import opened ForgeOverlap

  predicate Has(row: Row, f: Field, v: Value) { f in row && row[f] == v }

  // ---------------------------------------------------------------------------------------
  // Requests

  /** A recording is accepted exactly for a stored session that is active or finalized, within its
      time limit, which is sixty seconds unless it has another, and within 25 million bytes. */
  lemma {:induction false} OpenIsChecked(s: State, i: nat, w: World)
    requires i < |s.threads| && s.threads[i].OpenSession?
    ensures var (t, s') := (s.threads[i], Apply(s, Tick(i, w)));
            var accepted := t.sid in s.store.sessions
              && (var row := s.store.sessions[t.sid];
                  && (Has(row, Status, Label(Active)) || Has(row, Status, Label(Finalized)))
                  && (forall n :: Has(row, Other("max_duration_sec"), Number(n)) && n != 0 ==> t.duration <= n)
                  && ((forall n :: Has(row, Other("max_duration_sec"), Number(n)) ==> n == 0) ==> t.duration <= 60)
                  && t.size <= 25_000_000);
            && s'.store == s.store
            && s'.threads == s.threads[i := if accepted then OpenCreate(t.sid, t.key, t.duration, t.size) else Done]
  {
    if s.threads[i].sid in s.store.sessions {
      LimitIs(s.store.sessions[s.threads[i].sid]);
    }
  }

  lemma {:induction false} LimitIs(row: Row)
    ensures forall n :: Has(row, Other("max_duration_sec"), Number(n)) && n != 0 ==> MaxDuration(row) == n
    ensures (forall n :: Has(row, Other("max_duration_sec"), Number(n)) ==> n == 0) ==> MaxDuration(row) == 60
    ensures MaxDuration(row) == 60 || Has(row, Other("max_duration_sec"), Number(MaxDuration(row)))
  {
    var f := Other("max_duration_sec");
    if f in row && row[f].Number? {
      assert Has(row, f, Number(row[f].number));
    }
  }

  /** And is stored, pending upload and not queued, with what the request says. */
  lemma {:induction false} CreateStores(s: State, i: nat, w: World)
    requires i < |s.threads| && s.threads[i].OpenCreate? && w.newId !in s.store.responses
    ensures var (t, s') := (s.threads[i], Apply(s, Tick(i, w)));
            && s'.threads == s.threads[i := Done] && s'.store.sessions == s.store.sessions
            && s'.store.evaluations == s.store.evaluations
            && (forall rid :: rid in s.store.responses ==>
                  rid in s'.store.responses && s'.store.responses[rid] == s.store.responses[rid])
            && w.newId in s'.store.responses
            && var row := s'.store.responses[w.newId];
               && Has(row, Id, Text(w.newId)) && Has(row, SessionId, Text(t.sid)) && Has(row, IdempotencyKey, Text(t.key))
               && Has(row, DurationSec, Number(t.duration)) && Has(row, Other("size_bytes"), Number(t.size))
               && Has(row, Status, Label(PendingUpload)) && Has(row, TranscriptionStatus, Label(NotQueued))
               && Transcript !in row
  {
  }

  /** A session starts active, with what the request says. */
  lemma {:induction false} SessionStarts(s: State, i: nat, w: World)
    requires i < |s.threads| && s.threads[i].NewSession? && w.newId !in s.store.sessions
    ensures var (t, s') := (s.threads[i], Apply(s, Tick(i, w)));
            && s'.threads == s.threads[i := Done]
            && w.newId in s'.store.sessions
            && var row := s'.store.sessions[w.newId];
               && Has(row, Status, Label(Active)) && Has(row, Id, Text(w.newId))
               && forall f :: f in t.row && f !in {Id, Status, CreatedAt, UpdatedAt} ==> Has(row, f, t.row[f])
  {
  }

  /** A confirmation with its object marks the response confirmed and queued, with the object's
      size; without one it ends and writes nothing. */
  lemma {:induction false} ObjectIsChecked(s: State, i: nat, w: World)
    requires i < |s.threads| && s.threads[i].ConfirmObject? && s.threads[i].rid in s.store.responses
    ensures var (t, s') := (s.threads[i], Apply(s, Tick(i, w)));
            && (w.objectSize.None? ==> s'.store == s.store && s'.threads == s.threads[i := Done])
            && (w.objectSize.Some? ==>
                  && s'.threads == s.threads[i := ConfirmPending(t.sid, t.rid)]
                  && t.rid in s'.store.responses
                  && var row := s'.store.responses[t.rid];
                     && Has(row, Status, Label(Confirmed)) && Has(row, TranscriptionStatus, Label(Queued))
                     && Has(row, Other("size_bytes"), Number(w.objectSize.value)))
  {
  }

  /** Then the evaluation waits, for this response, and the pipeline of this response starts. */
  lemma {:induction false} PendingIsStored(s: State, i: nat, w: World)
    requires i < |s.threads| && s.threads[i].ConfirmPending? && IsNewEvaluationId(s.store, w.newId)
    ensures var (t, s') := (s.threads[i], Apply(s, Tick(i, w)));
            && s'.threads == s.threads[i := ConfirmLaunch(t.sid, t.rid)] && s'.store.responses == s.store.responses
            && t.sid in s'.store.evaluations
            && Has(s'.store.evaluations[t.sid], Status, Label(Pending))
            && Has(s'.store.evaluations[t.sid], ResponseId, Text(t.rid))
  {
  }

  lemma {:induction false} LaunchStarts(s: State, i: nat, w: World)
    requires i < |s.threads| && s.threads[i].ConfirmLaunch?
    ensures var (t, s') := (s.threads[i], Apply(s, Tick(i, w)));
            s'.store == s.store && s'.threads == s.threads[i := Done] + [PipeResponse(t.rid)]
  {
  }

  predicate Waits(row: Row) {
    || Has(row, TranscriptionStatus, Label(NotQueued))
    || Has(row, TranscriptionStatus, Label(Queued))
    || Has(row, TranscriptionStatus, Label(Failed))
  }

  /** finalize_session starts a pipeline exactly for a latest response whose transcription is not
      queued, queued or failed. */
  lemma {:induction false} FinalizeStarts(s: State, i: nat, w: World)
    requires i < |s.threads| && s.threads[i].FinalizeLatest?
    ensures var (t, s') := (s.threads[i], Apply(s, Tick(i, w)));
            var latest := Latest(s.store.responses, t.sid);
            && s'.store == s.store
            && s'.threads == s.threads[i := PollSession(t.sid, false)]
                 + if latest.Some? && Waits(latest.value) then [PipeResponse(IdOf(latest.value))] else []
  {
  }

  /** get_pending starts it again exactly for a confirmed response whose transcription is queued or
      failed while no good evaluation has its card. */
  lemma {:induction false} PollRetries(s: State, i: nat, w: World)
    requires i < |s.threads| && s.threads[i].PollEvaluation?
    ensures var (t, s') := (s.threads[i], Apply(s, Tick(i, w)));
            var ready := t.sid in s.store.evaluations
              && (var row := s.store.evaluations[t.sid];
                  && (Has(row, Status, Label(Completed)) || Has(row, Status, Label(Stubbed)))
                  && CoachCard in row && row[CoachCard].Coach?);
            var retry := !ready && t.response.Some? && Has(t.response.value, Status, Label(Confirmed))
              && (Has(t.response.value, TranscriptionStatus, Label(Queued))
                  || Has(t.response.value, TranscriptionStatus, Label(Failed)));
            && s'.store == s.store
            && s'.threads == s.threads[i := if t.feedback && ready then ShowEvaluation(t.sid) else Done]
                 + if retry then [PipeResponse(IdOf(t.response.value))] else []
  {
  }

  // ---------------------------------------------------------------------------------------
  // One pipeline by itself

  /** What speech recognition writes. */
  lemma {:induction false} ListenWrites(s: State, i: nat, w: World)
    requires i < |s.threads| && s.threads[i].PipeListen? && s.threads[i].rid in s.store.responses && !w.raises
    ensures var (t, s') := (s.threads[i], Apply(s, Tick(i, w)));
            && s'.store.evaluations == s.store.evaluations && s'.store.sessions == s.store.sessions
            && s'.store.responses.Keys == s.store.responses.Keys
            && (forall f :: f in s.store.responses[t.rid] && f !in {Transcript, TranscriptionStatus, Problem, UpdatedAt}
                            ==> Has(s'.store.responses[t.rid], f, s.store.responses[t.rid][f]))
            && Has(s'.store.responses[t.rid], Transcript, Text(if w.asr.Heard? then w.asr.text else ""))
            && Has(s'.store.responses[t.rid], TranscriptionStatus,
                   Label(if w.asr.Heard? then Completed else if w.asr.NoObject? || w.stubEval then Stubbed else Failed))
            && (!w.asr.Heard? ==>
                  Has(s'.store.responses[t.rid], Problem, Text(if w.asr.NoObject? then "no_audio_object" else "error")))
            && s'.threads == s.threads[i := if w.asr.AsrRaised? && !w.stubEval then PipeDeaf(t.rid, t.sid)
                                            else PipeCoach(t.rid, t.sid, if w.asr.Heard? then w.asr.text else "", w.stubEval)]
  {
  }

  /** What the evaluator writes: a card for the transcript it was given, completed unless a stub had
      a hand in it, or a failure. */
  lemma {:induction false} CoachWrites(s: State, i: nat, w: World)
    requires i < |s.threads| && s.threads[i].PipeCoach? && !w.raises && IsNewEvaluationId(s.store, w.newId)
    ensures var (t, s') := (s.threads[i], Apply(s, Tick(i, w)));
            && s'.store.responses == s.store.responses && s'.threads == s.threads[i := Done]
            && t.sid in s'.store.evaluations
            && var row := s'.store.evaluations[t.sid];
               && Has(row, ResponseId, Text(t.rid))
               && (w.evaluator.EvaluatorRaised? ==> Has(row, Status, Label(Failed)) && Has(row, Problem, Text("error")))
               && (w.evaluator.Judged? ==>
                     && Has(row, Status, Label(if t.stub || w.evaluator.byStub then Stubbed else Completed))
                     && Has(row, CoachCard, Coach(Card(if t.transcript == "" then "(no speech heard)" else t.transcript,
                                                       w.evaluator.verdict)))
                     && Has(row, Problem, Null))
  {
  }

  lemma {:induction false} DeafWrites(s: State, i: nat, w: World)
    requires i < |s.threads| && s.threads[i].PipeDeaf? && !w.raises && IsNewEvaluationId(s.store, w.newId)
    ensures var (t, s') := (s.threads[i], Apply(s, Tick(i, w)));
            && s'.store.responses == s.store.responses && s'.threads == s.threads[i := Done]
            && t.sid in s'.store.evaluations
            && Has(s'.store.evaluations[t.sid], Status, Label(Failed))
            && Has(s'.store.evaluations[t.sid], ResponseId, Text(t.rid))
  {
  }

  /** The steps before: they mark the response and the evaluation as processing. */
  lemma {:induction false} MarkWrites(s: State, i: nat, w: World)
    requires i < |s.threads| && s.threads[i].PipeMark? && s.threads[i].rid in s.store.responses && !w.raises
    ensures var (t, s') := (s.threads[i], Apply(s, Tick(i, w)));
            && s'.threads == s.threads[i := PipeProcessing(t.rid, t.sid)]
            && s'.store.evaluations == s.store.evaluations && s'.store.sessions == s.store.sessions
            && s'.store.responses.Keys == s.store.responses.Keys
            && Has(s'.store.responses[t.rid], TranscriptionStatus, Label(Processing))
  {
  }

  lemma {:induction false} ProcessingWrites(s: State, i: nat, w: World)
    requires i < |s.threads| && s.threads[i].PipeProcessing? && !w.raises && IsNewEvaluationId(s.store, w.newId)
    ensures var (t, s') := (s.threads[i], Apply(s, Tick(i, w)));
            && s'.threads == s.threads[i := PipeListen(t.rid, t.sid)]
            && s'.store.responses == s.store.responses && s'.store.sessions == s.store.sessions
            && t.sid in s'.store.evaluations
            && Has(s'.store.evaluations[t.sid], Status, Label(Processing))
            && Has(s'.store.evaluations[t.sid], ResponseId, Text(t.rid))
            && (forall id :: id != w.newId && IsNewEvaluationId(s.store, id) ==> IsNewEvaluationId(s'.store, id))
  {
  }

  lemma {:induction false} StartReads(s: State, i: nat, w: World, sid: Key)
    requires i < |s.threads| && !w.raises
    requires s.threads[i].PipeResponse? || s.threads[i].PipeSession?
    requires Belongs(s.store, s.threads[i].rid, sid) && (s.threads[i].PipeSession? ==> s.threads[i].sid == sid)
    ensures var (t, s') := (s.threads[i], Apply(s, Tick(i, w)));
            && s'.store == s.store
            && s'.threads == s.threads[i := if t.PipeResponse? then PipeSession(t.rid, sid) else PipeMark(t.rid, sid)]
  {
  }

  /** When an exception escapes, the response's transcription and the evaluation fail. */
  lemma {:induction false} RaisingFails(s: State, i: nat, sid: Key, raising: World, w: World)
    requires i < |s.threads| && IsPipeline(s.threads[i]) && raising.raises
    requires Belongs(s.store, s.threads[i].rid, sid) && IsNewEvaluationId(s.store, w.newId)
    ensures var (t, s') := (s.threads[i], Run(s, [Tick(i, raising), Tick(i, w)] + [Tick(i, w), Tick(i, w)]));
            && s'.threads == s.threads[i := Done]
            && t.rid in s'.store.responses && Has(s'.store.responses[t.rid], TranscriptionStatus, Label(Failed))
            && sid in s'.store.evaluations
            && Has(s'.store.evaluations[sid], Status, Label(Failed))
            && Has(s'.store.evaluations[sid], ResponseId, Text(t.rid))
  {
    hide Apply, Run;
    var rid := s.threads[i].rid;
    RunConcat(s, [Tick(i, raising), Tick(i, w)], [Tick(i, w), Tick(i, w)]);
    RunOfTwo(s, Tick(i, raising), Tick(i, w));
    RaiseStep(s, i, raising);
    var s1 := Apply(s, Tick(i, raising));
    FailMarkStep(s1, i, w, sid);
    var s2 := Apply(s1, Tick(i, w));
    RunOfTwo(s2, Tick(i, w), Tick(i, w));
    FailReadStep(s2, i, w, sid);
    var s3 := Apply(s2, Tick(i, w));
    FailWriteStep(s3, i, w);
  }

  lemma {:induction false} RaiseStep(s: State, i: nat, w: World)
    requires i < |s.threads| && IsPipeline(s.threads[i]) && w.raises
    ensures var s' := Apply(s, Tick(i, w)); s'.store == s.store && s'.threads == s.threads[i := FailMark(s.threads[i].rid)]
  {
  }

  lemma {:induction false} FailMarkStep(s: State, i: nat, w: World, sid: Key)
    requires i < |s.threads| && s.threads[i].FailMark? && Belongs(s.store, s.threads[i].rid, sid)
    ensures var (rid, s') := (s.threads[i].rid, Apply(s, Tick(i, w)));
            && s'.threads == s.threads[i := FailRead(rid)] && s'.store.evaluations == s.store.evaluations
            && Belongs(s'.store, rid, sid) && Has(s'.store.responses[rid], TranscriptionStatus, Label(Failed))
            && Has(s'.store.responses[rid], Problem, Text("error"))
  {
  }

  lemma {:induction false} FailReadStep(s: State, i: nat, w: World, sid: Key)
    requires i < |s.threads| && s.threads[i].FailRead? && Belongs(s.store, s.threads[i].rid, sid)
    ensures var s' := Apply(s, Tick(i, w)); s'.store == s.store && s'.threads == s.threads[i := FailWrite(s.threads[i].rid, sid)]
  {
  }

  lemma {:induction false} FailWriteStep(s: State, i: nat, w: World)
    requires i < |s.threads| && s.threads[i].FailWrite? && IsNewEvaluationId(s.store, w.newId)
    ensures var (t, s') := (s.threads[i], Apply(s, Tick(i, w)));
            && s'.threads == s.threads[i := Done] && s'.store.responses == s.store.responses
            && t.sid in s'.store.evaluations
            && Has(s'.store.evaluations[t.sid], Status, Label(Failed))
            && Has(s'.store.evaluations[t.sid], ResponseId, Text(t.rid))
  {
  }

  /** A pipeline that runs alone and in which nothing raises: the transcript is what was heard, the
      card was computed from it or from "(no speech heard)", and all statuses say so. */
  lemma {:induction false} PipelineAlone(s: State, i: nat, rid: Key, sid: Key, w: World, last: World) returns (events: seq<Event>)
    requires i < |s.threads| && s.threads[i] == PipeResponse(rid) && Belongs(s.store, rid, sid)
    requires !w.raises && !last.raises && w.newId != last.newId
    requires IsNewEvaluationId(s.store, w.newId) && IsNewEvaluationId(s.store, last.newId)
    ensures |events| == 6 && forall k :: 0 <= k < |events| ==> events[k].Tick? && events[k].i == i
    ensures var s' := Run(s, events);
            && s'.threads == s.threads[i := Done]
            && rid in s'.store.responses && sid in s'.store.evaluations
            && var (response, evaluation) := (s'.store.responses[rid], s'.store.evaluations[sid]);
               var text := if w.asr.Heard? then w.asr.text else "";
               && Has(response, Transcript, Text(text))
               && Has(response, TranscriptionStatus,
                      Label(if w.asr.Heard? then Completed else if w.asr.NoObject? || w.stubEval then Stubbed else Failed))
               && Has(evaluation, ResponseId, Text(rid))
               && (if (w.asr.AsrRaised? && !w.stubEval) || last.evaluator.EvaluatorRaised?
                   then Has(evaluation, Status, Label(Failed))
                   else
                     && Has(evaluation, Status, Label(if w.stubEval || last.evaluator.byStub then Stubbed else Completed))
                     && Has(evaluation, CoachCard,
                            Coach(Card(if text == "" then "(no speech heard)" else text, last.evaluator.verdict))))
  {
    hide Apply, Run;
    var (tick, end) := (Tick(i, w), Tick(i, last));
    events := [tick, tick, tick] + [tick, tick, end];
    RunConcat(s, [tick, tick, tick], [tick, tick, end]);
    RunOfThree(s, tick, tick, tick);
    StartReads(s, i, w, sid);
    var s1 := Apply(s, tick);
    StartReads(s1, i, w, sid);
    var s2 := Apply(s1, tick);
    MarkWrites(s2, i, w);
    var s3 := Apply(s2, tick);
    SameEvaluationIds(s2, s3);
    RunOfThree(s3, tick, tick, end);
    ProcessingWrites(s3, i, w);
    var s4 := Apply(s3, tick);
    ListenWrites(s4, i, w);
    var s5 := Apply(s4, tick);
    SameEvaluationIds(s4, s5);
    if w.asr.AsrRaised? && !w.stubEval {
      DeafWrites(s5, i, last);
    } else {
      CoachWrites(s5, i, last);
    }
  }

  lemma {:induction false} SameEvaluationIds(a: State, b: State)
    requires a.store.evaluations == b.store.evaluations
    ensures forall id :: IsNewEvaluationId(a.store, id) == IsNewEvaluationId(b.store, id)
  {
  }
}
