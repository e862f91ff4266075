/** english_forge/service.py: sessions, confirmations, polls and background pipelines that share
    one store. Every store call is one atomic step, and every request or pipeline is a thread:
    its constructor names the store call it makes next, its arguments are its local variables. */
module ForgeService {
  import opened Wrappers
  import opened PlainStore

  const NO_SPEECH := "(no speech heard)"
  const MAX_UPLOAD_BYTES := 25_000_000

  /** What speech recognition makes of the uploaded object; `text` is already stripped, and
      empty when no letter or digit was heard. */
  datatype Asr = Heard(text: string) | NoObject | AsrRaised

  datatype Evaluator = Judged(verdict: string, byStub: bool) | EvaluatorRaised

  /** Everything outside the store that a step may depend on. */
  datatype World = World(
    raises: bool,            // an exception escapes the pipeline before this step
    objectSize: Option<nat>, // what object_head finds
    asr: Asr,
    evaluator: Evaluator,
    stubEval: bool,          // the ENGLISH_FORGE_EVAL_STUB setting
    newId: Key)              // what uuid4 returns, should the step need an id

  /** What get_feedback returns. */
  datatype Feedback = Feedback(transcript: string, card: Card)

  datatype Thread =
    | Done
    // create_session
    | NewSession(row: Row)
    // create_response_session
    | OpenSession(sid: Key, key: string, duration: nat, size: nat)
    | OpenCreate(sid: Key, key: string, duration: nat, size: nat)
    // confirm_response
    | ConfirmSession(sid: Key, rid: Key, key: string, duration: nat)
    | ConfirmResponse(sid: Key, rid: Key, key: string, duration: nat)
    | ConfirmObject(sid: Key, rid: Key)
    | ConfirmPending(sid: Key, rid: Key)
    | ConfirmLaunch(sid: Key, rid: Key)
    // finalize_session, which ends as a poll
    | FinalizeSession(sid: Key)
    | FinalizeUpdate(sid: Key)
    | FinalizeLatest(sid: Key)
    // get_pending, by itself or as the start of get_feedback
    | PollSession(sid: Key, feedback: bool)
    | PollLatest(sid: Key, feedback: bool)
    | PollEvaluation(sid: Key, response: Option<Row>, feedback: bool)
    // the rest of get_feedback, which ends as what it returns
    | ShowEvaluation(sid: Key)
    | ShowLatest(sid: Key, card: Card)
    | Shown(sid: Key, shown: Feedback)
    // _process_response_async
    | PipeResponse(rid: Key)
    | PipeSession(rid: Key, sid: Key)
    | PipeMark(rid: Key, sid: Key)
    | PipeProcessing(rid: Key, sid: Key)
    | PipeListen(rid: Key, sid: Key)
    | PipeDeaf(rid: Key, sid: Key)
    | PipeCoach(rid: Key, sid: Key, transcript: string, stub: bool)
    // the exception handler of process_response_pipeline
    | FailMark(rid: Key)
    | FailRead(rid: Key)
    | FailWrite(rid: Key, sid: Key)

  datatype State = State(store: Plain, clock: nat, threads: seq<Thread>)

  const START := State(EMPTY, 0, [])

  datatype Event =
    | Request(thread: Thread)
    | Tick(i: nat, world: World)

  /** The requests a client can make. */
  predicate IsRequest(t: Thread) {
    t.NewSession? || t.OpenSession? || t.ConfirmSession? || t.FinalizeSession? || t.PollSession?
  }

  function TagOf(row: Row, field: Field): Option<Tag> {
    if field in row && row[field].Label? then Some(row[field].tag) else None
  }

  function TextOf(row: Row, field: Field): string {
    if field in row && row[field].Text? then row[field].text else ""
  }

  function NumberOf(row: Row, field: Field, default: int): int {
    if field in row && row[field].Number? then row[field].number else default
  }

  /** The transcript the evaluator is given. */
  function Spoken(transcript: string): string {
    if transcript == "" then NO_SPEECH else transcript
  }

  predicate HasCard(row: Row) {
    CoachCard in row && row[CoachCard].Coach?
  }

  predicate IsGood(row: Row) {
    TagOf(row, Status) == Some(Completed) || TagOf(row, Status) == Some(Stubbed)
  }

  /** The status says that work is under way. */
  predicate IsUnsettledTag(row: Row) {
    TagOf(row, Status) in {Some(Pending), Some(Processing)}
  }

  /** `ready` of get_pending. */
  predicate IsReady(evaluation: Option<Row>) {
    evaluation.Some? && IsGood(evaluation.value) && HasCard(evaluation.value)
  }

  /** The values that the schema allows in an evaluation's status. */
  predicate IsEvaluationTag(tag: Option<Tag>) {
    tag in {Some(Pending), Some(Processing), Some(Completed), Some(Stubbed), Some(Failed)}
  }

  predicate IsFinal(tag: Option<Tag>) {
    tag in {Some(Completed), Some(Stubbed), Some(Failed)}
  }

  /** Nothing is left to do. */
  predicate IsOver(t: Thread) {
    t.Done? || t.Shown?
  }

  predicate IsPipeline(t: Thread) {
    || t.PipeResponse? || t.PipeSession? || t.PipeMark? || t.PipeProcessing?
    || t.PipeListen? || t.PipeDeaf? || t.PipeCoach?
  }

  predicate IsHandler(t: Thread) {
    t.FailMark? || t.FailRead? || t.FailWrite?
  }

  function FailedPatch(rid: Key): (r: Row)
    ensures IsPatch(r) && TagOf(r, Status) == Some(Failed)
  {
    map[Status := Label(Failed), Problem := Text("error"), ResponseId := Text(rid)]
  }

  function HeardPatch(asr: Asr, stub: bool): (r: Row)
    ensures IsPatch(r)
  {
    match asr
    case Heard(text) => map[Transcript := Text(text), TranscriptionStatus := Label(Completed)]
    case NoObject =>
      map[Transcript := Text(""), TranscriptionStatus := Label(Stubbed), Problem := Text("no_audio_object")]
    case AsrRaised =>
      map[Transcript := Text(""), TranscriptionStatus := Label(if stub then Stubbed else Failed), Problem := Text("error")]
  }

  /** The last write of a pipeline that reached the evaluator. */
  function LastPatch(rid: Key, transcript: string, stub: bool, evaluator: Evaluator): (r: Row)
    ensures IsPatch(r) && IsFinal(TagOf(r, Status)) && !IsUnsettledTag(r) && (IsGood(r) ==> HasCard(r))
  {
    match evaluator
    case EvaluatorRaised => FailedPatch(rid)
    case Judged(verdict, byStub) =>
      map[Status := Label(if stub || byStub then Stubbed else Completed),
          CoachCard := Coach(Card(Spoken(transcript), verdict)),
          Problem := Null,
          ResponseId := Text(rid)]
  }

  function BusyPatch(rid: Key, tag: Tag): (r: Row)
    ensures IsPatch(r) && TagOf(r, Status) == Some(tag)
  {
    map[Status := Label(tag), ResponseId := Text(rid)]
  }

  function MarkPatch(tag: Tag): (r: Row)
    ensures IsPatch(r)
  {
    if tag == Failed then map[TranscriptionStatus := Label(Failed), Problem := Text("error")]
    else map[TranscriptionStatus := Label(tag)]
  }

  function ConfirmedPatch(size: nat): (r: Row)
    ensures IsPatch(r)
  {
    map[Status := Label(Confirmed), TranscriptionStatus := Label(Queued), Other("size_bytes") := Number(size)]
  }

  function OpenRow(t: Thread): Row
    requires t.OpenCreate?
  {
    map[SessionId := Text(t.sid), IdempotencyKey := Text(t.key), DurationSec := Number(t.duration),
        Other("size_bytes") := Number(t.size), Status := Label(PendingUpload),
        TranscriptionStatus := Label(NotQueued)]
  }

  /** A missing limit and a limit of zero are sixty seconds. */
  function MaxDuration(session: Row): int {
    var limit := NumberOf(session, Other("max_duration_sec"), 0);
    if limit == 0 then 60 else limit
  }

  /** create_response_session takes recordings that are short and small enough. */
  predicate MayOpen(session: Row, duration: nat, size: nat) {
    && TagOf(session, Status) in {Some(Active), Some(Finalized)}
    && duration <= MaxDuration(session)
    && size <= MAX_UPLOAD_BYTES
  }

  /** The session, key and duration of a confirmation must be the stored ones. */
  predicate MayConfirm(response: Row, sid: Key, key: string, duration: nat) {
    && OfSession(response, sid)
    && TextOf(response, IdempotencyKey) == key
    && NumberOf(response, DurationSec, 0) == duration
  }

  /** finalize_session starts the pipeline of a response that no pipeline has taken up. */
  predicate ShouldStart(row: Row) {
    TagOf(row, TranscriptionStatus) in {Some(NotQueued), Some(Queued), Some(Failed)}
  }

  /** get_pending starts it again when it looks stuck. */
  predicate ShouldRetry(evaluation: Option<Row>, row: Row) {
    && !IsReady(evaluation)
    && TagOf(row, TranscriptionStatus) in {Some(Queued), Some(Failed)}
    && TagOf(row, Status) == Some(Confirmed)
  }

  /** The store call of a thread's next step; some steps make none. */
  function CallOf(t: Thread, clock: nat, w: World): Option<Call> {
    if IsPipeline(t) && w.raises then None else
    match t
    case Done => None
    case NewSession(row) => Some(PostSession(row[Status := Label(Active)], w.newId, clock))
    case OpenSession(sid, _, _, _) => Some(ReadSession(sid))
    case OpenCreate(_, _, _, _) => Some(PostResponse(OpenRow(t), w.newId, clock))
    case ConfirmSession(sid, _, _, _) => Some(ReadSession(sid))
    case ConfirmResponse(_, rid, _, _) => Some(ReadResponse(rid))
    case ConfirmObject(_, rid) =>
      if w.objectSize.None? then None else Some(PatchResponse(rid, ConfirmedPatch(w.objectSize.value), clock))
    case ConfirmPending(sid, rid) => Some(PutEvaluation(sid, BusyPatch(rid, Pending), w.newId, clock))
    case ConfirmLaunch(_, _) => None
    case FinalizeSession(sid) => Some(ReadSession(sid))
    case FinalizeUpdate(sid) => Some(PatchSession(sid, map[Status := Label(Finalized)], clock))
    case FinalizeLatest(sid) => Some(ReadLatest(sid))
    case PollSession(sid, _) => Some(ReadSession(sid))
    case PollLatest(sid, _) => Some(ReadLatest(sid))
    case PollEvaluation(sid, _, _) => Some(ReadEvaluation(sid))
    case ShowEvaluation(sid) => Some(ReadEvaluation(sid))
    case ShowLatest(sid, _) => Some(ReadLatest(sid))
    case Shown(_, _) => None
    case PipeResponse(rid) => Some(ReadResponse(rid))
    case PipeSession(_, sid) => Some(ReadSession(sid))
    case PipeMark(rid, _) => Some(PatchResponse(rid, MarkPatch(Processing), clock))
    case PipeProcessing(rid, sid) => Some(PutEvaluation(sid, BusyPatch(rid, Processing), w.newId, clock))
    case PipeListen(rid, _) => Some(PatchResponse(rid, HeardPatch(w.asr, w.stubEval), clock))
    case PipeDeaf(rid, sid) => Some(PutEvaluation(sid, FailedPatch(rid), w.newId, clock))
    case PipeCoach(rid, sid, transcript, stub) =>
      Some(PutEvaluation(sid, LastPatch(rid, transcript, stub, w.evaluator), w.newId, clock))
    case FailMark(rid) => Some(PatchResponse(rid, MarkPatch(Failed), clock))
    case FailRead(rid) => Some(ReadResponse(rid))
    case FailWrite(rid, sid) => Some(PutEvaluation(sid, FailedPatch(rid), w.newId, clock))
  }

  /** What the thread does next, given only what its call answered, and the pipeline it starts. */
  function Next(t: Thread, answer: Option<Row>, w: World): (Thread, Option<Thread>) {
    if IsPipeline(t) && w.raises then (FailMark(t.rid), None) else
    match t
    case Done => (Done, None)
    case NewSession(_) => (Done, None)
    case OpenSession(sid, key, duration, size) =>
      (if answer.Some? && MayOpen(answer.value, duration, size) then OpenCreate(sid, key, duration, size) else Done, None)
    case OpenCreate(_, _, _, _) => (Done, None)
    case ConfirmSession(sid, rid, key, duration) =>
      (if answer.Some? then ConfirmResponse(sid, rid, key, duration) else Done, None)
    case ConfirmResponse(sid, rid, key, duration) =>
      (if answer.None? || !MayConfirm(answer.value, sid, key, duration) then Done
       else if TagOf(answer.value, Status) == Some(Confirmed) then ConfirmPending(sid, rid)
       else ConfirmObject(sid, rid), None)
    case ConfirmObject(sid, rid) => (if w.objectSize.None? then Done else ConfirmPending(sid, rid), None)
    case ConfirmPending(sid, rid) => (ConfirmLaunch(sid, rid), None)
    case ConfirmLaunch(_, rid) => (Done, Some(PipeResponse(rid)))
    case FinalizeSession(sid) => (if answer.Some? then FinalizeUpdate(sid) else Done, None)
    case FinalizeUpdate(sid) => (FinalizeLatest(sid), None)
    case FinalizeLatest(sid) =>
      (PollSession(sid, false),
       if answer.Some? && ShouldStart(answer.value) then Some(PipeResponse(IdOf(answer.value))) else None)
    case PollSession(sid, feedback) => (if answer.Some? then PollLatest(sid, feedback) else Done, None)
    case PollLatest(sid, feedback) => (PollEvaluation(sid, answer, feedback), None)
    case ShowEvaluation(sid) =>
      (if answer.Some? && HasCard(answer.value) then ShowLatest(sid, answer.value[CoachCard].card) else Done, None)
    case ShowLatest(sid, card) =>
      (Shown(sid, Feedback(if answer.Some? then TextOf(answer.value, Transcript) else "", card)), None)
    case Shown(_, _) => (t, None)
    case PollEvaluation(sid, response, feedback) =>
      (if feedback && IsReady(answer) then ShowEvaluation(sid) else Done,
       if response.Some? && ShouldRetry(answer, response.value) then Some(PipeResponse(IdOf(response.value))) else None)
    case PipeResponse(rid) => (if answer.Some? then PipeSession(rid, TextOf(answer.value, SessionId)) else Done, None)
    case PipeSession(rid, sid) => (if answer.Some? then PipeMark(rid, sid) else Done, None)
    case PipeMark(rid, sid) => (PipeProcessing(rid, sid), None)
    case PipeProcessing(rid, sid) => (PipeListen(rid, sid), None)
    case PipeListen(rid, sid) =>
      (if w.asr.AsrRaised? && !w.stubEval then PipeDeaf(rid, sid)
       else PipeCoach(rid, sid, if w.asr.Heard? then w.asr.text else "", w.stubEval), None)
    case PipeDeaf(_, _) => (Done, None)
    case PipeCoach(_, _, _, _) => (Done, None)
    case FailMark(rid) => (FailRead(rid), None)
    case FailRead(rid) => (if answer.Some? then FailWrite(rid, TextOf(answer.value, SessionId)) else Done, None)
    case FailWrite(_, _) => (Done, None)
  }

  ghost function AnswerTo(store: Plain, call: Option<Call>): Option<Row> {
    if call.None? then None else Answer(store, call.value)
  }

  ghost function StoreAfter(store: Plain, call: Option<Call>): Plain {
    if call.None? then store else After(store, call.value)
  }

  /** A tick moves a thread that exists; an id that uuid4 would not return moves nothing. */
  ghost predicate IsTick(s: State, i: nat, w: World) {
    && i < |s.threads|
    && var call := CallOf(s.threads[i], s.clock, w);
       call.Some? ==> IsCall(s.store, call.value, s.clock)
  }

  ghost function Apply(s: State, e: Event): State {
    match e
    case Request(t) => if IsRequest(t) then s.(threads := s.threads + [t]) else s
    case Tick(i, w) =>
      if !IsTick(s, i, w) then s else
      var call := CallOf(s.threads[i], s.clock, w);
      var (t, started) := Next(s.threads[i], AnswerTo(s.store, call), w);
      var threads := s.threads[i := t];
      State(
        StoreAfter(s.store, call),
        if call.Some? then NextClock(s.clock, call.value) else s.clock,
        if started.Some? then threads + [started.value] else threads)
  }

  /** Any interleaving of any requests. */
  ghost function Run(s: State, events: seq<Event>): State
    decreases |events|
  {
    if events == [] then s else Run(Apply(s, events[0]), events[1..])
  }

  // ---------------------------------------------------------------------------------------
  // What every step keeps

  /** Rows are only added, and keep the columns that identify them. */
  ghost predicate Grows(a: Plain, b: Plain) {
    && a.sessions.Keys <= b.sessions.Keys
    && a.responses.Keys <= b.responses.Keys
    && (forall rid, sid :: rid in a.responses && OfSession(a.responses[rid], sid) ==> OfSession(b.responses[rid], sid))
    && (forall sid :: CardAt(a, sid) ==> CardAt(b, sid))
  }

  /** The session's evaluation has a card. */
  predicate CardAt(store: Plain, sid: Key) {
    sid in store.evaluations && HasCard(store.evaluations[sid])
  }

  /** `rid` is a stored response of the stored session `sid`. */
  predicate Belongs(store: Plain, rid: Key, sid: Key) {
    && sid in store.sessions
    && rid in store.responses
    && OfSession(store.responses[rid], sid)
  }

  ghost predicate StoreOk(store: Plain) {
    && (forall rid :: rid in store.responses ==>
          IdOf(store.responses[rid]) == rid && Belongs(store, rid, TextOf(store.responses[rid], SessionId)))
    && (forall sid :: sid in store.evaluations ==> EvaluationOk(store, sid))
  }

  /** A good evaluation has a card, and every evaluation has a response and a status of its own. */
  ghost predicate EvaluationOk(store: Plain, sid: Key)
    requires sid in store.evaluations
  {
    && (IsGood(store.evaluations[sid]) ==> HasCard(store.evaluations[sid]))
    && IsEvaluationTag(TagOf(store.evaluations[sid], Status))
    && exists rid :: Belongs(store, rid, sid)
  }

  /** What a thread's locals promise about the store. */
  ghost predicate ThreadOk(store: Plain, t: Thread) {
    match t
    case OpenCreate(sid, _, _, _) => sid in store.sessions
    case FinalizeUpdate(sid) => sid in store.sessions
    case ConfirmObject(sid, rid) => Belongs(store, rid, sid)
    case ConfirmPending(sid, rid) => Belongs(store, rid, sid)
    case ConfirmLaunch(sid, rid) => Belongs(store, rid, sid)
    case ShowEvaluation(sid) => CardAt(store, sid)
    case PollEvaluation(sid, response, _) => response.Some? ==> Belongs(store, IdOf(response.value), sid)
    case PipeResponse(rid) => exists sid :: Belongs(store, rid, sid)
    case PipeSession(rid, sid) => Belongs(store, rid, sid)
    case PipeMark(rid, sid) => Belongs(store, rid, sid)
    case PipeProcessing(rid, sid) => Belongs(store, rid, sid)
    case PipeListen(rid, sid) => Belongs(store, rid, sid)
    case PipeDeaf(rid, sid) => Belongs(store, rid, sid)
    case PipeCoach(rid, sid, _, _) => Belongs(store, rid, sid)
    case FailMark(rid) => exists sid :: Belongs(store, rid, sid)
    case FailRead(rid) => exists sid :: Belongs(store, rid, sid)
    case FailWrite(rid, sid) => Belongs(store, rid, sid)
    case _ => true
  }

  /** The stored evaluation says that work is under way. */
  predicate Unsettled(store: Plain, sid: Key) {
    sid in store.evaluations && IsUnsettledTag(store.evaluations[sid])
  }

  /** The thread will still write a final status for the session: a confirmation that has yet
      to launch its pipeline, or a pipeline that has yet to make its last write. */
  predicate Owes(store: Plain, t: Thread, sid: Key) {
    (t.ConfirmLaunch? || IsPipeline(t) || IsHandler(t)) && Belongs(store, t.rid, sid)
  }

  ghost predicate Inv(s: State) {
    && StoreOk(s.store)
    && (forall i :: 0 <= i < |s.threads| ==> ThreadOk(s.store, s.threads[i]))
    && (forall sid :: Unsettled(s.store, sid) ==>
          exists i :: 0 <= i < |s.threads| && Owes(s.store, s.threads[i], sid))
  }

  lemma StartIsOk()
    ensures Inv(START)
  {
  }

  /** Two sessions cannot share a response. */
  lemma OwnerIsUnique(store: Plain, rid: Key, a: Key, b: Key)
    requires Belongs(store, rid, a) && Belongs(store, rid, b)
    ensures a == b && a in store.sessions
  {
  }

  lemma ThreadOkGrows(a: Plain, b: Plain, t: Thread)
    requires Grows(a, b) && ThreadOk(a, t)
    ensures ThreadOk(b, t)
  {
    if t.PipeResponse? || t.FailMark? || t.FailRead? {
      var sid :| Belongs(a, t.rid, sid);
      assert Belongs(b, t.rid, sid);
    }
  }

  /** What a call must bring for the store to stay in order. */
  ghost predicate IsSafe(store: Plain, call: Call) {
    match call
    case PostResponse(row, _, _) => SessionId in row && row[SessionId].Text? && row[SessionId].text in store.sessions
    case PutEvaluation(sid, patch, _, _) =>
      && (exists rid :: Belongs(store, rid, sid))
      && IsEvaluationTag(TagOf(patch, Status))
      && (IsGood(patch) || CoachCard in patch ==> HasCard(patch))
      && ResponseId in patch && patch[ResponseId].Text? && patch[ResponseId].text in store.responses
    case _ => true
  }

  lemma CallGrows(store: Plain, call: Call, clock: nat)
    requires IsCall(store, call, clock) && IsSafe(store, call)
    ensures Grows(store, After(store, call))
  {
  }

  /** Growing keeps every evaluation's response. */
  lemma OwnersStay(store: Plain, store': Plain, sid: Key)
    requires Grows(store, store') && exists rid :: Belongs(store, rid, sid)
    ensures exists rid :: Belongs(store', rid, sid)
  {
    var rid :| Belongs(store, rid, sid);
    assert Belongs(store', rid, sid);
  }

  lemma CallKeepsResponses(store: Plain, call: Call, clock: nat)
    requires StoreOk(store) && IsCall(store, call, clock) && IsSafe(store, call)
    ensures var responses := After(store, call).responses;
            forall rid :: rid in responses ==>
              IdOf(responses[rid]) == rid && Belongs(After(store, call), rid, TextOf(responses[rid], SessionId))
  {
  }

  lemma {:induction false} CallKeepsEvaluations(store: Plain, call: Call, clock: nat)
    requires StoreOk(store) && IsCall(store, call, clock) && IsSafe(store, call)
    ensures var store' := After(store, call);
            forall sid :: sid in store'.evaluations ==> EvaluationOk(store', sid)
  {
    hide Grows, IsCall, OfSession;
    var store' := After(store, call);
    CallGrows(store, call, clock);
    forall sid | sid in store'.evaluations ensures EvaluationOk(store', sid) {
      if sid in store.evaluations {
        assert EvaluationOk(store, sid);
      }
      OwnersStay(store, store', sid);
    }
  }

  lemma ThreadIsSafe(store: Plain, clock: nat, t: Thread, w: World)
    requires ThreadOk(store, t) && CallOf(t, clock, w).Some?
    ensures IsSafe(store, CallOf(t, clock, w).value)
  {
  }

  /** What a read tells the thread about the store. */
  ghost predicate Fits(store: Plain, t: Thread, answer: Option<Row>) {
    match t
    case OpenSession(sid, _, _, _) => answer == Lookup(store.sessions, sid)
    case ConfirmSession(sid, _, _, _) => answer == Lookup(store.sessions, sid)
    case FinalizeSession(sid) => answer == Lookup(store.sessions, sid)
    case PollSession(sid, _) => answer == Lookup(store.sessions, sid)
    case PollEvaluation(sid, _, _) => answer == Lookup(store.evaluations, sid)
    case ShowEvaluation(sid) => answer.Some? && HasCard(answer.value)
    case PipeSession(_, sid) => answer == Lookup(store.sessions, sid)
    case ConfirmResponse(_, rid, _, _) => answer.Some? ==> Belongs(store, rid, TextOf(answer.value, SessionId))
    case PipeResponse(rid) => answer.Some? && Belongs(store, rid, TextOf(answer.value, SessionId))
    case FailRead(rid) => answer.Some? && Belongs(store, rid, TextOf(answer.value, SessionId))
    case FinalizeLatest(sid) => answer.Some? ==> Belongs(store, IdOf(answer.value), sid)
    case PollLatest(sid, _) => answer.Some? ==> Belongs(store, IdOf(answer.value), sid)
    case _ => true
  }

  lemma AnswerFits(store: Plain, clock: nat, t: Thread, w: World)
    requires StoreOk(store) && ThreadOk(store, t) && !(IsPipeline(t) && w.raises)
    ensures Fits(store, t, AnswerTo(store, CallOf(t, clock, w)))
  {
  }

  lemma FittingNextIsOk(store: Plain, t: Thread, answer: Option<Row>, w: World)
    requires ThreadOk(store, t)
    requires !(IsPipeline(t) && w.raises) && Fits(store, t, answer)
    ensures var (t', started) := Next(t, answer, w);
            && ThreadOk(store, t')
            && (started.Some? ==> started.value.PipeResponse? && ThreadOk(store, started.value))
  {
    hide ShouldStart, ShouldRetry, MayOpen;
  }

  /** What the thread does next holds its promises already in the store it read. */
  lemma NextIsOk(store: Plain, clock: nat, t: Thread, w: World)
    requires StoreOk(store) && ThreadOk(store, t)
    ensures var (t', started) := Next(t, AnswerTo(store, CallOf(t, clock, w)), w);
            && ThreadOk(store, t')
            && (started.Some? ==> started.value.PipeResponse? && ThreadOk(store, started.value))
  {
    hide StoreOk, AnswerTo, CallOf;
    if IsPipeline(t) && w.raises {
      RaisingIsOk(store, t);
    } else {
      AnswerFits(store, clock, t, w);
      FittingNextIsOk(store, t, AnswerTo(store, CallOf(t, clock, w)), w);
    }
  }

  lemma RaisingIsOk(store: Plain, t: Thread)
    requires ThreadOk(store, t) && IsPipeline(t)
    ensures ThreadOk(store, FailMark(t.rid))
  {
  }

  /** An evaluation write settles or unsettles its own session only; other calls, none. */
  lemma CallSettles(store: Plain, call: Call, sid: Key)
    requires call.PutEvaluation? ==> TagOf(call.patch, Status).Some?
    ensures Unsettled(After(store, call), sid) <==>
              if call.PutEvaluation? && call.sid == sid then IsUnsettledTag(call.patch) else Unsettled(store, sid)
  {
  }

  /** The thread's debt to the session passes to what comes next, unless it is paid. */
  lemma {:induction false} DebtGoesOn(store: Plain, clock: nat, t: Thread, answer: Option<Row>, w: World, sid: Key)
    requires ThreadOk(store, t) && Owes(store, t, sid)
    requires !(IsPipeline(t) && w.raises) ==> Fits(store, t, answer)
    ensures var call := CallOf(t, clock, w);
            var (t', started) := Next(t, answer, w);
            || Owes(store, t', sid)
            || (started.Some? && Owes(store, started.value, sid))
            || (call.Some? && call.value.PutEvaluation? && call.value.sid == sid && !IsUnsettledTag(call.value.patch))
  {
    hide ShouldStart, ShouldRetry, MayOpen, HeardPatch, MarkPatch, ConfirmedPatch, LastPatch, BusyPatch, FailedPatch;
    hide Belongs, IsReady, HasCard, MayConfirm, MaxDuration, TagOf, NumberOf, OpenRow;
    if t.PipeSession? || t.PipeDeaf? || t.PipeCoach? || t.FailWrite? {
      OwnerIsUnique(store, t.rid, t.sid, sid);
    }
  }

  /** Only a thread that will go on to a final write says that work is under way. */
  lemma DebtIsTaken(store: Plain, clock: nat, t: Thread, answer: Option<Row>, w: World)
    requires ThreadOk(store, t)
    ensures var call := CallOf(t, clock, w);
            call.Some? && call.value.PutEvaluation? && IsUnsettledTag(call.value.patch) ==>
              Owes(store, Next(t, answer, w).0, call.value.sid)
  {
    hide ShouldStart, ShouldRetry, MayOpen, HeardPatch, MarkPatch, ConfirmedPatch, LastPatch, BusyPatch, FailedPatch;
  }

  /** A step that leaves an evaluation unsettled owes it a final write, or leaves it to others. */
  lemma {:induction false} StepPays(store: Plain, clock: nat, t: Thread, w: World, sid: Key)
    requires StoreOk(store) && ThreadOk(store, t)
    ensures var call := CallOf(t, clock, w);
            var (t', started) := Next(t, AnswerTo(store, call), w);
            Unsettled(StoreAfter(store, call), sid) ==>
              || Owes(store, t', sid)
              || (started.Some? && Owes(store, started.value, sid))
              || (Unsettled(store, sid) && !Owes(store, t, sid))
  {
    hide StoreOk, After, Unsettled, CallOf, Next, Owes, Fits, Answer, ThreadOk, IsSafe;
    var call := CallOf(t, clock, w);
    if call.Some? {
      ThreadIsSafe(store, clock, t, w);
      SafePutHasStatus(store, call.value);
      CallSettles(store, call.value, sid);
    }
    if !(IsPipeline(t) && w.raises) {
      AnswerFits(store, clock, t, w);
    }
    DebtIsTaken(store, clock, t, AnswerTo(store, call), w);
    if Owes(store, t, sid) {
      DebtGoesOn(store, clock, t, AnswerTo(store, call), w, sid);
    }
  }

  lemma SafePutHasStatus(store: Plain, call: Call)
    requires IsSafe(store, call)
    ensures call.PutEvaluation? ==> TagOf(call.patch, Status).Some?
  {
  }

  lemma TickKeepsInv(s: State, i: nat, w: World)
    requires Inv(s) && IsTick(s, i, w)
    ensures Inv(Apply(s, Tick(i, w)))
  {
    hide StoreOk, EvaluationOk, Grows, CallOf, Next, IsCall, After, Answer, ThreadOk, Owes, Unsettled, IsSafe;
    var t, s' := s.threads[i], Apply(s, Tick(i, w));
    var call := CallOf(t, s.clock, w);
    var (t', started) := Next(t, AnswerTo(s.store, call), w);
    StepKeepsStore(s.store, s.clock, t, w);
    NextIsOk(s.store, s.clock, t, w);
    forall k | 0 <= k < |s'.threads| ensures ThreadOk(s'.store, s'.threads[k]) {
      var before := if k == i then t' else if k < |s.threads| then s.threads[k] else started.value;
      ThreadOkGrows(s.store, s'.store, before);
    }
    forall sid | Unsettled(s'.store, sid)
      ensures exists k :: 0 <= k < |s'.threads| && Owes(s'.store, s'.threads[k], sid)
    {
      StepPays(s.store, s.clock, t, w, sid);
      var k :| 0 <= k < |s'.threads| && Owes(s.store, s'.threads[k], sid) by {
        if Owes(s.store, t', sid) {
          assert s'.threads[i] == t';
        } else if started.Some? && Owes(s.store, started.value, sid) {
          assert s'.threads[|s.threads|] == started.value;
        } else {
          var k :| 0 <= k < |s.threads| && Owes(s.store, s.threads[k], sid);
          assert s'.threads[k] == s.threads[k];
        }
      }
      OwesGrows(s.store, s'.store, s'.threads[k], sid);
    }
  }

  lemma OwesGrows(a: Plain, b: Plain, t: Thread, sid: Key)
    requires Grows(a, b) && Owes(a, t, sid)
    ensures Owes(b, t, sid)
  {
  }

  lemma {:induction false} StepKeepsStore(store: Plain, clock: nat, t: Thread, w: World)
    requires StoreOk(store) && ThreadOk(store, t)
    requires CallOf(t, clock, w).Some? ==> IsCall(store, CallOf(t, clock, w).value, clock)
    ensures var store' := StoreAfter(store, CallOf(t, clock, w));
            Grows(store, store') && StoreOk(store')
  {
    hide EvaluationOk, CallOf, IsCall, After, ThreadOk, IsSafe;
    var call := CallOf(t, clock, w);
    if call.Some? {
      ThreadIsSafe(store, clock, t, w);
      CallGrows(store, call.value, clock);
      CallKeepsResponses(store, call.value, clock);
      CallKeepsEvaluations(store, call.value, clock);
    }
  }

  lemma ApplyKeepsInv(s: State, e: Event)
    requires Inv(s)
    ensures Inv(Apply(s, e))
  {
    hide StoreOk;
    match e
    case Tick(i, w) => if IsTick(s, i, w) { TickKeepsInv(s, i, w); }
    case Request(t) =>
      if IsRequest(t) {
        forall sid | Unsettled(s.store, sid)
          ensures exists k :: 0 <= k < |s.threads| + 1 && Owes(s.store, (s.threads + [t])[k], sid)
        {
          var k :| 0 <= k < |s.threads| && Owes(s.store, s.threads[k], sid);
          assert Owes(s.store, (s.threads + [t])[k], sid);
        }
      }
  }

  lemma {:induction false} RunKeepsInv(s: State, events: seq<Event>)
    requires Inv(s)
    ensures Inv(Run(s, events))
    decreases |events|
  {
    hide Inv, Apply;
    if events != [] {
      ApplyKeepsInv(s, events[0]);
      RunKeepsInv(Apply(s, events[0]), events[1..]);
    }
  }
}
