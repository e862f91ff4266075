# Verified models of the BandForge backend

This project models the parts of the backend that hold state machines, codecs and arithmetic, and
proves what they keep. `dafny verify dfyconfig.toml` checks all of it.

- **English Forge store** (`PlainStore`, `PlainRows`, `ForgeStore`). `PlainStore` is one plain in-memory map,
  and `PlainRows` says what each call does to it, column by column.
  `ForgeStore` is the class of `english_forge/store.py`: a database, its in-memory mirror, and the
  fallback from one to the other. A database call answers with its row (`Returned`), answers with
  no row although it took effect (`Quiet`), or is lost before or after it took effect (`Lost`); and
  the database refuses a second response with the session and idempotency key of a stored one
  (`supabase/migrations/20260910120000_english_forge_sessions.sql:49-50`). The proof carries one
  invariant: while the database answers, mirror and database agree with the plain map on every key;
  afterwards the mirror does.
- **English Forge service** (`ForgeService`, `ForgeProgress`, `ForgeFeedback`, `ForgeReads`,
  `ForgeOverlap`, `ForgeFailover`, `ForgeConfirm`, `ForgeFlow`). Requests and background pipelines are threads over the plain
  store; each store call is one atomic step, the five reads of `get_feedback` included; any pipeline
  may raise at any step. Events interleave in any order. `ForgeFailover` runs the threads on the
  mirrored store, `ForgeConfirm` traces every confirmed response to its request, and `ForgeFlow` says
  what each request and pipeline leaves.
- **Listening builder** (`Text`, `AnswerFormat`, `ListeningBuilder`, `ListeningRoundTrip`,
  `ChooseLetters`). Saving prints questions as rows, loading parses rows greedily into questions.
- **Codecs** (`Base64Url`, `UploadTicket`, `TicketChecks`, `SqlValues`, `SqlRows`, `SqlColumns`). Each printer has a parser that
  is proved to invert it. `SqlValues` has a parser for `VALUES` lists with the string literals of
  section 5.3 of ISO/IEC 9075-2.
- **Numbering** (`ReadingNumbers`, `ListeningFlatten`, `SectionRows`, `ListeningImport`).
- **Catalogue and history** (`PublishGate`, `PracticeCatalog`, `PracticeOperations`, `VersionHistory`,
  `ReminderSweep`, `SweepResults`).
- **Bands** (`BandRounding`, `ReviewAnalytics`, `ReviewRates`) over `real` with half-even rounding.

Imperative code is a class or a method proved against a function of the old state; the lemmas are
about that function, and for every operation some of them say what it leaves field by field, without
naming the functions that compute it.

## Where the code does not do what it says

Each of these is a theorem, with the exact condition; the failing inputs are runs from the start:

- A response whose idempotency key its session already has is refused by the database and kept in
  memory only, so that the next `get_latest_response` of a healthy database returns another row than
  the one just created (`ForgeStore.RepeatIsSeen`). Without such a response, and with values that the columns can hold, a
  failover is invisible.
- `get_feedback` reads the card before the transcript. A pipeline that listens in between puts its
  transcript beside the other recording's card, even when pipelines never overlap
  (`ForgeReads.FeedbackIsCoherent`, `ForgeOverlap.LateListenMixes`). Overlapping pipelines of one
  response can also store such a pair (`ForgeOverlap.OverlapMixesFeedback`,
  `ForgeOverlap.OverlapHappens`).
- A speaking set can be published with a question that has neither prompt nor video, because
  `str(None)` is not blank (`app/admin/question_bank.py:692-703`); every other set is published
  exactly when it is complete (`PublishGate.GateIsExact`, `PracticeCatalog.EmptySpeakingIsPublished`).
- What students see can change while the catalogue version stays: when an exception comes between a
  write and the version, when all retries fail, when the save of an intro swallows that failure
  (`app/admin/question_bank.py:1751-1755`), and when a writing save is refused after it has changed
  the exam module (`app/admin/question_bank.py:1394-1415`). `PracticeCatalog.StepIsNoticed` says
  exactly when, `PracticeCatalog.RefusedSaveShows` and `PracticeCatalog.IntroSlips` give the runs, and
  an operation that reports success is noticed unless it saves an intro
  (`PracticeCatalog.SuccessIsNoticed`).
- An edit of a question stores its version before it updates the question and writes its audit
  entry last (`app/admin/questions.py:267-290`), so an exception in between leaves a version without
  an audit entry, and after the update a change that no entry lists. A request that passes the
  checks can cause the first: a skill tag or question type of more than forty characters, a question
  number beyond 32 bits, or a NUL character. Versions stay 1 to n whatever happens;
  `VersionHistory.RunKeepsHistory` says exactly when the rest holds, `VersionHistory.QuietRunIsPaired`
  when refused values are the only failures, and `VersionHistory.LongTagBreaksPairs` and
  `VersionHistory.LostAuditIsUntold` are runs in which it does not.
- `is_overridden` documents |Δ| ≥ 0.5, but compares a difference that it has rounded half-even to
  halves, so it means |Δ| > 1/4 (`BandRounding.Thresholds`).
- The SQL printers leave the mock id (and, for reading, the question type) unescaped, and a listening
  section without rows prints a list that does not parse (`SqlRows.ListeningIsStored`,
  `SqlRows.ReadingIsStored`).
- The comment at `app/admin/listening_builder.py:122` says that only the first row of a pair keeps
  shared instructions; the later rows keep them, too, when the question has instructions of its own
  (`ListeningBuilder.LaterRowsKeepPassage`).

## Model

| member | source | states |
|---|---|---|
| ForgeStore.Replay | english_forge/store.py:1-324 | Failover refinement: for every sequence of store calls that name stored rows and every point at which the database stops answering, with writes that take effect without returning a row and plain reads that come back empty before it, a new store answers each call as one plain map does, up to the creation stamp of evaluations, unless a repeated idempotency key reaches the database while it answers |
| ForgeStore.RepeatIsSeen | english_forge/store.py:126-197 | The converse: after any such calls on a database that answers, a response with a repeated key makes the next latest response differ from the plain map's |
| ForgeStore.RepeatHappens | supabase/migrations/20260910120000_english_forge_sessions.sql:49-50 | One session and two responses with one key are such an input |
| ForgeStore.ServeAll | english_forge/store.py:53-324 | Any such calls on any valid store |
| ForgeStore.Serve | english_forge/store.py:53-324 | The same for one call on any valid store, which stays valid |
| ForgeStore.ForgeStore.CreateSession | english_forge/store.py:53-72 | The row returned and stored is the plain map's new row, whatever the database does; mirror and database stay in agreement |
| ForgeStore.ForgeStore.GetSession | english_forge/store.py:75-96 | An empty or lost read is answered from the mirror with the row the plain map has |
| ForgeStore.ForgeStore.UpdateSession | english_forge/store.py:99-123 | The answer and the stored row are those of the plain map, whose columns `PlainRows.PatchSessionMerges` names one by one, also when the update returns nothing |
| ForgeStore.ForgeStore.CreateResponse | english_forge/store.py:126-145 | As for sessions; a response with a repeated key is returned and kept in memory, while a database that answers stays without it |
| ForgeStore.ForgeStore.GetResponse | english_forge/store.py:148-169 | As for sessions |
| ForgeStore.ForgeStore.GetLatestResponse | english_forge/store.py:172-197 | The answer is the newest response of the session, or none exactly when the session has none; on a store with refused responses it is the newest the database has, if it has one |
| ForgeStore.ForgeStore.UpdateResponse | english_forge/store.py:200-242 | The patch is applied once in mirror and database and the patched row returned; memory lacks only what the database lacks, so the last resort of reading a row back never has one to patch |
| ForgeStore.ForgeStore.UpsertEvaluation | english_forge/store.py:245-300 | One evaluation per session whatever was lost on the way; the stored and returned row is the merge of the old one and the patch, up to its creation stamp |
| ForgeStore.ForgeStore.GetEvaluation | english_forge/store.py:303-324 | The session's evaluation up to its creation stamp |
| ForgeStore.UpsertBoth | english_forge/store.py:252-300 | The remote attempt and the local fallback together keep both tables in agreement on all evaluations |
| ForgeStore.FindEvaluation | english_forge/store.py:291-294 | Finds an evaluation of the session exactly when there is one |
| ForgeStore.Newest | english_forge/store.py:192-197 | Finds a response that no response of the session is newer than, exactly when there is one |
| ForgeStore.FoundIsIt | english_forge/store.py:290-296 | Tables in agreement hold at most one evaluation per session, so any search finds the same one |
| PlainStore.LatestIsUnique | english_forge/store.py:172-197 | Creation stamps never tie, so the latest response of a session is one row |
| PlainStore.CallKeepsOrder | english_forge/store.py:53-300 | No call disturbs the order of creation stamps or puts one in the future |
| PlainRows.PatchSessionMerges | english_forge/store.py:99-123 | A patched session is answered and stored with every patched column at its new value, every other column but the update time as before, and nothing else anywhere changes; an unknown one changes nothing |
| PlainRows.PatchResponseMerges | english_forge/store.py:200-242 | The same for a response |
| PlainRows.PostSessionAdds | english_forge/store.py:53-72 | A new session is answered and stored with every given column, its new id and two stamps, and nothing else |
| PlainRows.PostResponseAdds | english_forge/store.py:126-145 | The same for a response |
| PlainRows.PutEvaluationMerges | english_forge/store.py:245-300 | The one evaluation of the session takes the patch and keeps its id and other columns, or starts with the patch and the new id; it names its session, and no other row changes |
| PlainRows.ReadsAreRows | english_forge/store.py:75-324 | Reads answer with the stored row, or nothing, and change nothing |
| PlainRows.LatestIsLast | english_forge/store.py:172-197 | The latest response is a row of the session that none was created after, and missing exactly when the session has none |
| PlainRows.KeysRepeatBySession | supabase/migrations/20260910120000_english_forge_sessions.sql:49-50 | A response repeats a key exactly when a stored response of the same session has it |
| PlainRows.RowsStay | english_forge/store.py:53-324 | Every read gives the same row until a call writes that row |
| PlainRows.PatchedSessionIsRead | english_forge/store.py:75-123 | So every read up to the next write gives the merged session |
| PlainRows.PatchedResponseIsRead | english_forge/store.py:148-242 | And the merged response |
| PlainRows.PutEvaluationIsRead | english_forge/store.py:245-324 | And the evaluation with the patched columns |
| PlainRows.PostedIsRead | english_forge/store.py:53-169 | And the new session or response as it was given |
| ForgeService.RunKeepsInv | english_forge/service.py:49-498 | The protocol invariant holds after every interleaving: rows belong to stored sessions, evaluations have one of their five statuses and good ones a card, and every unsettled evaluation is owed a write; what a confirmation needs is `ForgeConfirm.ConfirmedWasAsked` |
| ForgeService.TickKeepsInv | english_forge/service.py:388-498 | Each single step keeps it |
| ForgeService.StepPays | english_forge/service.py:370-498 | A step that leaves an evaluation unsettled either leaves the debt with its thread or hands it to the pipeline it starts |
| ForgeService.DebtGoesOn | english_forge/service.py:370-498 | A thread that owes a final write goes on owing it until it has written one, exceptions included |
| ForgeService.DebtIsTaken | english_forge/service.py:266-274 | Whoever writes a status that says work is under way owes the final write |
| ForgeService.CallKeepsEvaluations | english_forge/service.py:266-269 | No call of the service stores an evaluation without one of its five statuses, or a completed or stubbed one without a card |
| ForgeService.CallKeepsResponses | english_forge/service.py:113-150 | No call moves a response to another session or loses one |
| ForgeService.NextIsOk | english_forge/service.py:388-498 | After each step the thread's locals name a stored response of a stored session |
| ForgeProgress.NoStuckWork | english_forge/service.py:256-282 | In every reachable state a pending or processing evaluation is owed a final write by some thread |
| ForgeProgress.QuietMeansSettled | english_forge/service.py:370-498 | When every thread is over every evaluation is completed, stubbed or failed |
| ForgeProgress.WorkIsBounded | english_forge/service.py:215-498 | Without new requests no schedule goes on for more steps than a measure of the threads; no retry loops |
| ForgeProgress.CanWork | english_forge/service.py:370-498 | No thread that is not done is ever stuck |
| ForgeProgress.EveryDrainSettles | english_forge/service.py:370-498 | So from every reachable state every way of finishing the threads ends, with all evaluations completed, stubbed or failed |
| ForgeFailover.RunsAreServed | english_forge/service.py:49-498 | The calls of every run are well formed for the store, and its answers are the ones the run was made with |
| ForgeFailover.StampIsNotSeen | english_forge/service.py:306-346 | No thread reads the one column that a failover may change |
| ForgeFailover.ServeRun | english_forge/service.py:49-498 | A failover in the middle of any run whose requests bring no idempotency key twice gives each of its store calls the same answer |
| ForgeFailover.RunOnStore | english_forge/service.py:49-498 | The threads themselves on a mirrored store, going on with its answers: through any failover they end where they end on the plain store |
| ForgeFailover.RunsAreLegal | english_forge/service.py:104-118 | Such runs make only calls that the foreign keys and the unique index allow |
| ForgeFailover.TickBringsNoKey | english_forge/service.py:103-118 | Only a request brings a key into the run |
| ForgeConfirm.ConfirmedWasAsked | english_forge/service.py:215-264 | In every run a response that is stored as confirmed was confirmed by a request that names its own session, idempotency key and duration |
| ForgeConfirm.ConfirmingWasAsked | english_forge/service.py:221-274 | And so was every response that a confirmation is about to mark, to wait for, or to start a pipeline for |
| ForgeConfirm.ConfirmationIsChecked | english_forge/service.py:224-232 | In every reachable state a confirmation goes on exactly when the stored response has its session, key and duration; any other leaves the store as it is and starts nothing |
| ForgeConfirm.FinalizedStays | english_forge/service.py:285-292 | Once finalize_session has written, the session is finalized in every later state of the run |
| ForgeFlow.OpenIsChecked | english_forge/service.py:79-98 | A recording is accepted exactly for a stored session that is active or finalized, within its time limit, sixty seconds when it has none or zero, and within 25 million bytes |
| ForgeFlow.CreateStores | english_forge/service.py:100-118 | And is then stored with what the request says, pending upload and not queued |
| ForgeFlow.SessionStarts | english_forge/service.py:64-76 | A session starts active with what the request says |
| ForgeFlow.ObjectIsChecked | english_forge/service.py:232-264 | With its object a response becomes confirmed and queued, with the size of the object; without one nothing is written |
| ForgeFlow.PendingIsStored | english_forge/service.py:266-269 | Then the evaluation is pending for this response |
| ForgeFlow.LaunchStarts | english_forge/service.py:271-274 | And one pipeline, of this response, starts |
| ForgeFlow.FinalizeStarts | english_forge/service.py:285-303 | A pipeline starts exactly for a latest response whose transcription is not queued, queued or failed |
| ForgeFlow.PollRetries | english_forge/service.py:306-338 | It starts again exactly for a confirmed response whose transcription is queued or failed while no completed or stubbed evaluation has a card |
| ForgeFlow.ListenWrites | english_forge/service.py:404-452 | The transcript and its status for sound, for a missing object and for a failing recognition |
| ForgeFlow.CoachWrites | english_forge/service.py:454-498 | The card is for the transcript that the evaluator was given, completed unless a stub had a hand in it; a failing evaluator leaves a failure |
| ForgeFlow.RaisingFails | english_forge/service.py:370-385 | From any step of a pipeline at which an exception escapes, transcription and evaluation end as failed |
| ForgeFlow.PipelineAlone | english_forge/service.py:388-498 | A pipeline that runs alone leaves what was heard as transcript, the card computed from it or from "(no speech heard)", and the statuses that say so |
| ForgeReads.FeedbackIsCoherent | english_forge/service.py:349-362 | For every feedback that get_feedback returns, in a session with one response whose pipelines do not overlap, and whichever steps of its thread took its readiness, card and transcript: the card was computed from the transcript exactly when speech recognition did not write another text after the card was last ready and before the transcript was read |
| ForgeReads.QuietFeedbackIsCoherent | english_forge/service.py:349-362 | In particular when no speech recognition of the response falls between finding the evaluation ready and reading the transcript |
| ForgeReads.FeedbackWasRead | english_forge/service.py:306-362 | Every returned feedback was read in three steps of its thread, at its readiness check, its look at the card and its look at the transcript |
| ForgeReads.FeedbackHasCard | english_forge/service.py:353-356 | Once the evaluation was found ready the card never fails to be there |
| ForgeReads.CardSince | english_forge/service.py:483-492 | Between the last ready state and the reading of the card the card is the same |
| ForgeReads.TranscriptSince | english_forge/service.py:409-450 | The stored transcript is what speech recognition wrote last |
| ForgeFeedback.StoredIsCoherent | english_forge/service.py:388-498 | In such a session, at every point of every re-run, a ready card was computed from the stored transcript |
| ForgeFeedback.GoodMeansReady | english_forge/service.py:306-346 | In every reachable state completed or stubbed implies a stored card |
| ForgeFeedback.TickKeepsCoherent | english_forge/service.py:388-498 | The step that makes this an invariant |
| ForgeFeedback.RunKeepsCoherent | english_forge/service.py:388-498 | It holds through every run without overlap |
| ForgeOverlap.OverlapMixesFeedback | english_forge/service.py:388-498 | From any state with two pipelines of the response in flight, other than two about to be judged by the stored transcript, at most three of their steps lead to feedback whose card is not from its transcript |
| ForgeOverlap.OverlapHappens | english_forge/service.py:215-498 | A run from the start that gets there: one confirmation and one finalization |
| ForgeOverlap.LateListenMixes | english_forge/service.py:349-362 | A run from the start without overlap in which get_feedback returns one recording's card beside the other's transcript |
| ForgeOverlap.StoredIsServed | english_forge/service.py:349-362 | What is stored is what get_feedback returns when no other step falls between its reads |
| AnswerFormat.JoinOfSplitAnswers | app/admin/answer_format.py:17-30 | Splitting a stored answer and joining it gives it back exactly when its slash segments are trimmed and nonblank |
| AnswerFormat.SplitOfJoinAnswers | app/admin/answer_format.py:17-30 | Primary answer and alternatives come back when they are trimmed, nonblank and free of slashes |
| AnswerFormat.ParsedAreLetters | app/admin/answer_format.py:33-59 | Whatever the text, what is parsed are upper-case single letters |
| AnswerFormat.ParseOfPair | app/admin/answer_format.py:33-59 | Two letters joined by a comma parse back; `ChooseLetters.ParseOfLetters` has any number of them and either separator |
| AnswerFormat.ParseOfPlain | app/admin/answer_format.py:33-59 | Fewer than two letters without a comma and a slash |
| AnswerFormat.JoinedLetter | app/admin/answer_format.py:17-20 | A joined answer that strips to a letter came from that letter alone |
| ChooseLetters.ParseOfLetters | app/admin/answer_format.py:33-59 | Any two or more letters, in either case and with blanks around them, joined by commas or by slashes, are parsed as these letters in upper case and in order |
| ChooseLetters.PiecesAreParsed | app/admin/answer_format.py:33-59 | Any two or more pieces are parsed piece by piece, with slashes separating only where there is no comma |
| ChooseLetters.LettersByPiece | app/admin/answer_format.py:52-58 | And pieces that are no single letter are passed over |
| ChooseLetters.JoinedAnswers | app/admin/answer_format.py:17-20 | A stored answer is the trimmed primary and the trimmed alternatives in order |
| ChooseLetters.BlankAlternativesGo | app/admin/answer_format.py:17-20 | Without the blank ones |
| Text.StripIsMiddle | app/admin/answer_format.py:19 | What stripping takes away are spaces at both ends |
| Text.StripOfMiddle | app/admin/answer_format.py:19 | And all of them |
| Text.CasesMatch | app/admin/answer_format.py:51 | The 26 letters match in upper and lower case |
| Text.OthersHaveNoCase | app/admin/answer_format.py:51 | And no other ASCII character has a case |
| ListeningBuilder.SlugOfDisplay | app/admin/listening_question_types.py:5-48 | The name a slug is shown under stores that slug again, with and without choose-two |
| ListeningBuilder.SaveRows | app/admin/listening_builder.py:85-126 | The insert loop writes the rows of the printer, numbered in turn; `ChooseLetters.LettersInPart` and `ChooseLetters.OneInPart` say what each question is printed as |
| ListeningBuilder.LoadRows | app/admin/listening_builder.py:179-226 | The index-jumping loop is the greedy left-to-right parser |
| ChooseLetters.SavedAsLetters | app/admin/listening_builder.py:85-126 | A choose-two question with two or more letters is saved as one row for each, the k-th with the k-th letter and number, and with the prompt, options and skill of the question |
| ChooseLetters.LettersInPart | app/admin/listening_builder.py:85-126 | Also in the middle of any part, after the rows before it |
| ChooseLetters.SavedAsOne | app/admin/listening_builder.py:85-118 | Any other question is saved as one row with its own type, prompt, options, joined answer, instructions and skill |
| ChooseLetters.OneInPart | app/admin/listening_builder.py:85-126 | Also in the middle of any part |
| ChooseLetters.OtherwiseSavedAsOne | app/admin/listening_builder.py:107-126 | So is a choose-two question of another type or with fewer than two letters |
| ChooseLetters.WhatIsMerged | app/admin/answer_format.py:92-108 | Loading merges two rows exactly when both are multiple choices with equal prompts and options and one letter each, and the first is not merged yet |
| ChooseLetters.LoadedAsPair | app/admin/listening_builder.py:207-226 | A merged pair shows both letters and the columns of its first row |
| ChooseLetters.LoadedAsOne | app/admin/listening_builder.py:195-226 | Any other row shows its own |
| ChooseLetters.WhatLooksChooseTwo | app/admin/listening_builder.py:43-50 | A multiple choice is shown as choose-two exactly when its first answer holds a comma |
| ChooseLetters.SlugsAre | app/admin/listening_question_types.py:5-42 | The slug of each question type |
| ChooseLetters.NamesAre | app/admin/listening_question_types.py:18-48 | The name that each slug is shown under |
| ListeningBuilder.ResaveIsFixpoint | app/admin/listening_builder.py:85-226 | Load then save rewrites the same rows, up to letter case and absent options, exactly when every row that is not merged is stable: current type, clean answer, no choose-two cell in a multiple choice; mis-merged neighbours and choose-three rows included |
| ListeningBuilder.SavedPartComesBack | app/admin/listening_builder.py:85-226 | The same for every part that was saved by an admin, with its own numbering |
| ListeningBuilder.ResaveSettles | app/admin/listening_builder.py:85-226 | From any rows at all one load and save reaches such a fixpoint |
| ListeningBuilder.SavedRows | app/admin/listening_builder.py:104-126 | Saved rows are numbered without gaps, and a letter answer is stored bare |
| ListeningBuilder.LaterRowsKeepPassage | app/admin/listening_builder.py:120-126 | The later rows of a choose-two question have the passage of the first, shared instructions included, exactly when the question has instructions of its own |
| ListeningBuilder.StableRowComesBack | app/admin/listening_builder.py:195-226 | A stable row alone is rewritten as itself |
| ListeningBuilder.UnstableRowChanges | app/admin/listening_builder.py:195-226 | An unstable row alone is not |
| ListeningBuilder.PairComesBack | app/admin/answer_format.py:62-108 | Two rows that look like a pair are rewritten as themselves, whoever they came from |
| ListeningBuilder.ResavedAreStable | app/admin/listening_builder.py:85-226 | Every row that any load and save writes is stable |
| ListeningRoundTrip.LoadOfSave | app/admin/listening_builder.py:85-226 | Save then load returns type, prompt, options, answer, alternatives and choose-two flag of all questions if and only if no two neighbours meet in letter rows with equal prompt and options |
| ListeningRoundTrip.PartComesBack | app/admin/listening_builder.py:53-226 | The same for a whole part |
| ListeningRoundTrip.FormedPartComesBack | app/admin/listening_builder.py:53-226 | A part in the form's own terms comes back exactly as it was, if and only if no two neighbours meet |
| ListeningRoundTrip.FormedIsShown | app/admin/listening_question_types.py:5-48 | Types by their names and upper-case letter pairs are their own normal form |
| ListeningRoundTrip.MeetIff | app/admin/answer_format.py:92-108 | The merge crosses a question boundary exactly when the two questions meet |
| ListeningRoundTrip.PairComesBack | app/admin/answer_format.py:62-108 | A choose-two question is stored as two rows that merge back into it |
| ListeningRoundTrip.SingleComesBack | app/admin/listening_builder.py:195-226 | Any other question is stored in one row that loads as it was |
| Base64Url.DecodeOfEncode | app/admin/audio_upload_ticket.py:21-27 | For all byte strings decoding undoes encoding, with the stripped padding recomputed from the length |
| Base64Url.EncodeIsBody | app/admin/audio_upload_ticket.py:21-22 | Stripping removes exactly the padding that decoding puts back, and leaves only letters, digits, `-` and `_` |
| UploadTicket.ParseOfMint | app/admin/audio_upload_ticket.py:30-70 | A minted ticket parses to its payload through 900 seconds inclusive and is refused as expired from then on |
| UploadTicket.SplitOfHalves | app/admin/audio_upload_ticket.py:50 | Splitting at the first dot recovers both halves |
| UploadTicket.QuoteOfUnreserved | app/admin/audio_upload_ticket.py:75 | Quoting leaves unreserved characters (section 2.3 of RFC 3986) alone |
| UploadTicket.TicketIsAttached | app/admin/audio_upload_ticket.py:73-75 | On any URL the ticket is unchanged as the last query parameter, after all that were there |
| TicketChecks.TicketIsChecked | app/admin/audio_upload_ticket.py:48-70 | A ticket is let through exactly if it is a blob, a dot and the signature of the bytes of the blob, these hold the payload, and that expires now or later; it is reported as expired exactly if only the last is missing |
| TicketChecks.MintedFor900 | app/admin/audio_upload_ticket.py:18-45 | A minted ticket is signed so and lives 900 seconds |
| TicketChecks.DigitsAreTheAlphabet | app/admin/audio_upload_ticket.py:21-22 | The digits are those of table 2 of RFC 4648 |
| TicketChecks.GroupsHaveTheirValue | app/admin/audio_upload_ticket.py:21-22 | Every group of digits has, as a number, the value of its bytes, filled up with zero bits at the end |
| TicketChecks.ValuesAreTheAlphabet | app/admin/audio_upload_ticket.py:25-27 | The decoder gives each digit its place in that table, takes the two characters of plain base64 as well, and no others |
| TicketChecks.WhatDecodes | app/admin/audio_upload_ticket.py:25-27 | Of texts made of these digits exactly those whose last group is a single digit are refused; the others give three bytes for every four digits; a text that is not ASCII is refused |
| TicketChecks.ParameterIsAdded | app/admin/audio_upload_ticket.py:73-75 | The parameter follows `?` on a URL without a query and `&` on one with it |
| TicketChecks.QuoteIsByCharacter | app/admin/audio_upload_ticket.py:75 | Every character outside letters, digits and `-_.~` is replaced by its escape, wherever it stands |
| SqlValues.ParseOfPrint | scripts/normalize_listening_mock.py:52-63 | Parsing printed rows gives back exactly those cells in order, null apart from text and JSON apart from both, whatever quotes, commas and parentheses they hold |
| SqlValues.PrintOfParse | scripts/normalize_listening_mock.py:398-413 | Nothing else parses, so the printer is the only inverse |
| SqlValues.LexOfEscape | scripts/normalize_listening_mock.py:52-56 | A quote-doubled literal ends where it was meant to, for every text |
| SqlRows.ListeningIsStored | scripts/normalize_listening_mock.py:388-415 | The rendered list stores exactly the rows, column by declared column, if and only if there is a row and no mock id holds a quote |
| SqlRows.ReadingIsStored | scripts/normalize_reading_mock.py:193-217 | The same for reading, where the question type must be free of quotes as well |
| SqlRows.RenderListening | scripts/normalize_listening_mock.py:398-415 | The printing loop renders that list |
| SqlRows.RenderReading | scripts/normalize_reading_mock.py:159-217 | No text exactly without rows; otherwise that list |
| SqlRows.ParsesWhenEscaped | scripts/normalize_reading_mock.py:203-216 | A list with some cells printed bare parses to the intended cells exactly when each bare text equals its escaped form |
| SqlColumns.ListeningIsRead | scripts/normalize_listening_mock.py:388-415 | Read back, row i of a printed section holds under each column name its own field of row i, null where that is missing |
| SqlColumns.ReadingIsRead | scripts/normalize_reading_mock.py:193-217 | The same for reading |
| SqlColumns.QuotesAreDoubled | scripts/normalize_listening_mock.py:52-63 | Each quote is doubled and nothing else changes; missing values are `NULL` and JSON carries its type |
| SqlColumns.NumbersAreDecimal | scripts/normalize_listening_mock.py:402-404 | Numbers are printed in decimal without leading zeros |
| ListeningImport.Import | scripts/normalize_listening_mock.py:270-415 | From groups to SQL: refused exactly on unsound groups or a wrong total; otherwise one stored row per question, exactly when some group is not skipped and the mock id holds no quote |
| ListeningImport.ImportedRowIsRead | scripts/normalize_listening_mock.py:295-313 | What is read back for row i are its own number, type, prompt, text, options, answer and skill, under the mock, part and audio asked for |
| ReadingNumbers.QuestionTable.Delete | app/admin/reading_builder.py:203-239 | The question goes with its answers and versions only; the rest is the renumbered table, reached by one write per row whose number changes |
| ReadingNumbers.WritesAreSteps | app/admin/reading_builder.py:314-318 | Each recorded write gives one row the number of its place, which it did not have, and the last table is the renumbered one; there is none exactly if every row had its number |
| ReadingNumbers.QuestionTable.Renumber | app/admin/reading_builder.py:302-318 | The loop writes exactly the rows that change, in order, and each intermediate table is recorded |
| ReadingNumbers.QuestionTable.Select | app/admin/reading_builder.py:305-313 | Each row of the part once, by number |
| ReadingNumbers.NeverClashesIff | app/admin/reading_builder.py:314-318 | No two rows of the part share a number after any update, exactly when none did before and no row holds a number that an earlier row takes |
| ReadingNumbers.DeleteIsSafe | app/admin/reading_builder.py:203-227 | From distinct positive numbers a delete never makes two rows share a number at any write, and each row ends with one more than the rows below it |
| ReadingNumbers.NumberIsHigh | app/admin/reading_builder.py:314-316 | Distinct positive numbers leave the row at place i a number of at least i |
| ReadingNumbers.RenumberedIsOneToN | app/admin/reading_builder.py:302-318 | The numbers in use afterwards are exactly 1 to n, in the same relative order |
| ReadingNumbers.DeleteShifts | app/admin/reading_builder.py:203-227 | From numbers 1 to n the later questions move down by one and the earlier ones stay |
| ListeningFlatten.FlattenGroups | scripts/normalize_listening_mock.py:130-249 | Succeeds exactly when there are groups and all are sound; otherwise the error is that of the first unsound group |
| ListeningFlatten.RowsOfGroup | scripts/normalize_listening_mock.py:143-246 | The loops over letters and questions give one row for each |
| SectionRows.GroupIsSound | scripts/normalize_listening_mock.py:143-184 | Which kinds are taken, which one is skipped when that is allowed, and each error with the condition that raises it |
| SectionRows.QuestionIsPlaced | scripts/normalize_listening_mock.py:186-237 | Row i of a group holds the number, prompt, answer and options of its question i, the type and skill of the group, and the text of the group exactly on the number listed first |
| SectionRows.LetterIsPlaced | scripts/normalize_listening_mock.py:158-179 | Row i of a choice of several letters holds number i and answer i, and the instructions exactly on the smallest number |
| SectionRows.OptionsAreLabelled | scripts/normalize_listening_mock.py:66-75 | Labelled options are kept one for one, trimmed, and the others left out |
| SectionRows.TextIsComposed | scripts/normalize_listening_mock.py:108-127 | The text of a form, of notes and of other groups, from instructions, titles and sections, blank ones left out |
| SectionRows.SectionIsALine | scripts/normalize_listening_mock.py:88-105 | A section with a heading and a range is one line with its first and last number |
| SectionRows.GroupAddsItsRows | scripts/normalize_listening_mock.py:143-248 | Each group adds exactly its rows to the section, and to the count one for each letter or question |
| ListeningFlatten.FlattenedIsSorted | scripts/normalize_listening_mock.py:248 | Sorted by number, ties in the order of the groups, and as many rows as the groups that are not skipped have questions |
| ListeningFlatten.TextsComeOnce | scripts/normalize_listening_mock.py:167-226 | Each group's text stands on at least one row, and all on exactly one, exactly when the number that gets it is used once in its group |
| ListeningFlatten.DistinctIsSingle | scripts/normalize_listening_mock.py:167-226 | Distinct numbers are enough |
| ListeningFlatten.RenumberPerPart | scripts/normalize_listening_mock.py:252-267 | The loop computes the shift |
| ListeningFlatten.RenumberedIsShift | scripts/normalize_listening_mock.py:252-267 | In any order the rows start at one afterwards, nothing else about them changes, and a second time changes nothing |
| SectionRows.RowsAreShifted | scripts/normalize_listening_mock.py:252-267 | The same amount is taken from every number, such that the smallest becomes one |
| ListeningFlatten.RenumberedKeepsOrder | scripts/normalize_listening_mock.py:252-267 | On sorted rows no row moves |
| ListeningFlatten.RenumberedIsOneToN | scripts/normalize_listening_mock.py:252-267 | The numbers are exactly 1 to n if and only if they were distinct and without a gap |
| ListeningFlatten.Normalize | scripts/normalize_listening_mock.py:270-284 | Succeeds exactly on sound groups whose question count is the promised total, if one is; the count is that of the rows |
| PublishGate.PublishBlockers | app/admin/question_bank.py:583-708 | The loops compute the blocker list |
| PublishGate.GateIsExact | app/admin/question_bank.py:583-708 | The list is empty exactly for a complete set, or for a speaking set with a question object without video |
| PublishGate.OneBlockerEach | app/admin/question_bank.py:628-651 | One missing-answer blocker for each unanswered question of a listening or reading set |
| PublishGate.MissingAreCounted | app/admin/question_bank.py:628-632 | And it names that question's place |
| PublishGate.SpeakingGate | app/admin/question_bank.py:692-703 | The ready test is passed exactly by a prompt, a video, or a question object without video |
| PublishGate.EmptySpeakingPasses | app/admin/question_bank.py:692-703 | A speaking set that is published incomplete |
| PracticeOperations.ListeningGate | app/admin/question_bank.py:617-651 | A listening set passes exactly with a question, a nonblank answer to each, and audio for every section with questions |
| PracticeOperations.ReadingGate | app/admin/question_bank.py:617-651 | A reading set exactly with a question, a passage and a nonblank answer to each question |
| PracticeOperations.WritingGate | app/admin/question_bank.py:653-690 | A writing set exactly with a prompt, an exam module and task types that go with it |
| PracticeOperations.SpeakingGateIs | app/admin/question_bank.py:692-708 | A speaking set exactly with a question that has a prompt, or an options object whose video is missing, null or not blank |
| PracticeOperations.AnswersAreNamed | app/admin/question_bank.py:617-651 | The blockers of a listening or reading set name exactly the sections without audio, the places of blank answers and a missing passage |
| PracticeOperations.TasksAreNamed | app/admin/question_bank.py:653-690 | Those of a writing set exactly a missing prompt, a missing module, or else every task that is unknown or does not go with it |
| PracticeCatalog.StepIsNoticed | app/admin/question_bank.py:517-580 | Over every operation, with an exception between any two of its writes or after them, the version never falls, and it stays while what students see changes in exactly the cases of `Slips` |
| PracticeCatalog.RunIsNoticed | app/admin/question_bank.py:545-580 | Over every run without such a case the version has risen whenever the published sets or their content differ from the start |
| PracticeCatalog.SuccessIsNoticed | app/admin/question_bank.py:545-560 | An operation that reports success never slips unless it saves an intro, and a refused one changes nothing unless it is a writing save |
| PracticeCatalog.GoodRunIsNoticed | app/admin/question_bank.py:545-580 | So over every run of operations that went well the version has risen whenever students see something else |
| PracticeCatalog.PublishedWasComplete | app/admin/question_bank.py:722-737 | Every step into published starts from a set that passes the gate and leaves its content alone |
| PracticeCatalog.BlockedChangesNothing | app/admin/question_bank.py:722-732 | A refused publish changes nothing |
| PracticeCatalog.RefusedSaveShows | app/admin/question_bank.py:1394-1415 | From an empty catalogue, a run whose last step is a refused writing save that changes what students see |
| PracticeCatalog.IntroSlips | app/admin/question_bank.py:1723-1782 | A run whose last step saves an intro, reports success and leaves the version |
| PracticeCatalog.EmptySpeakingIsPublished | app/admin/question_bank.py:692-757 | A run that publishes a speaking set without prompt and video |
| PracticeCatalog.Catalog.BumpStrict | app/admin/question_bank.py:563-580 | Three tries at most; fails exactly when none reports success, while lost replies still raise the version |
| PracticeCatalog.Catalog.AfterMutation | app/admin/question_bank.py:545-560 | The version is raised exactly for mutations that students can see |
| PracticeCatalog.Catalog.CreateSet | app/admin/question_bank.py:785-881 | A new set is never published and its module goes with writing |
| PracticeCatalog.Catalog.PatchStatus | app/admin/question_bank.py:711-757 | Gate, status and version together, through the transaction, whose reply may be lost, or the fallback, which may be cut off before the version |
| PracticeCatalog.Catalog.SaveContent | app/admin/question_bank.py:1084-1151 | The section of that part is replaced and an exception leaves the writes made so far; `PracticeOperations.SaveReplacesPart` says part by part what that is and that the rest stays |
| PracticeCatalog.Catalog.WriteSection | app/admin/question_bank.py:194-240 | Section columns, deletion of the old questions and insertion of the new ones, one after the other; part by part in `PracticeOperations.SaveReplacesPart` |
| PracticeCatalog.Catalog.SaveTask | app/admin/question_bank.py:1377-1456 | Module before task check, in the source's order |
| PracticeCatalog.Catalog.PatchExamModule | app/admin/question_bank.py:946-1006 | Only a writing set whose tasks all fit gets a new module |
| PracticeCatalog.Catalog.DeleteSet | app/admin/question_bank.py:1022-1058 | Only custom sets that nothing refers to go |
| PracticeCatalog.Catalog.SaveIntro | app/admin/question_bank.py:1723-1782 | The intro is written and success reported whatever becomes of the version |
| PracticeOperations.SaveReplacesPart | app/admin/question_bank.py:1084-1151 | Which sections are accepted, and for each point at which an exception may come: the saved part holds what was written by then, every other part what it had, parts stay in order, and nothing else in the set and no other set changes |
| PracticeOperations.WritingReplacesPart | app/admin/question_bank.py:1377-1456 | The same for a writing save, with the task type and the exam module it sets |
| PracticeOperations.CreateAdds | app/admin/question_bank.py:785-881 | A set is created exactly with a title, not published, and with a module exactly for writing; it starts custom and empty |
| PracticeOperations.StatusIsSet | app/admin/question_bank.py:711-757 | A status change writes the status and nothing else, and only if the gate lets it |
| PracticeOperations.ModuleIsSet | app/admin/question_bank.py:946-1006 | A module is set exactly on a writing set all whose tasks go with it |
| PracticeOperations.DeleteRemoves | app/admin/question_bank.py:1022-1058 | Exactly a custom set that nothing refers to goes, and no other |
| PracticeOperations.IntroIsSet | app/admin/question_bank.py:1733-1782 | A nonblank intro is stored trimmed in its own form |
| PracticeOperations.UnknownIsRefused | app/admin/question_bank.py:104-124 | No operation but creation does anything for a set that is not there |
| PracticeOperations.VersionIsRaised | app/admin/question_bank.py:545-580 | For each operation what it does to the version and what it reports: nothing unless students see the write, and otherwise what up to three tries do |
| PracticeOperations.SameVersionLooksTheSame | app/admin/question_bank.py:517-580 | So while operations succeed, two states with one version look the same to every student, set by set |
| VersionHistory.Questions.Patch | app/admin/questions.py:212-292 | An edit that fails the checks writes nothing and says why; one that passes them adds one version with the nine columns as they were, leaves in each column what its own field gave or what it held, and adds one audit entry with exactly the given columns, as far as it comes before a refused value or an exception |
| VersionHistory.PatchedIsEdit | app/admin/questions.py:212-292 | Each of the nine columns holds afterwards what its own request field gave, or what it held; the version holds the nine columns as they were under the next number; the audit entry lists a column exactly when its field was given; no other question changes |
| VersionHistory.EditIsChecked | app/admin/questions.py:212-292 | Exactly which edits are refused, with the reason, which come to an end, and what each stop leaves, from the fields of the request and the columns of the question |
| VersionHistory.FaultOfOptions | app/admin/questions.py:150-197 | The fault of a list of options is that of the first one without label, without text, or with the label of an earlier one |
| VersionHistory.Questions.Check | app/admin/questions.py:219-265 | The checks reject exactly the faulty edits, with the first fault, and give the updates of the others |
| VersionHistory.Questions.WriteAll | app/admin/questions.py:267-290 | Version, update and audit entry one after the other, each only if the one before it was made |
| VersionHistory.Questions.Write | supabase/migrations/20260518120000_phase2_new_tables.sql:8-25 | The update is refused exactly for a value that a column cannot hold, and otherwise cuts spaces beyond the width |
| VersionHistory.Questions.Gather | app/admin/questions.py:230-250 | The updates are those of the specification, which `VersionHistory.PatchedIsEdit` ties field by field to the columns |
| VersionHistory.Questions.NextVersion | app/admin/questions.py:73-84 | One above every version of the question |
| VersionHistory.NormalizeOptions | app/admin/questions.py:150-197 | Accepts exactly two or more options with labels and texts, no two labels alike in upper case, whatever upper case is; otherwise the first fault |
| VersionHistory.StartsChained | app/admin/questions.py:73-84 | Questions without versions have the history that every run keeps |
| VersionHistory.RunKeepsHistory | app/admin/questions.py:212-292 | Over any run of edits of any questions, whatever is raised where, the versions of each are exactly 1 to n, one for each edit that got as far as storing one; there is one audit entry for each version if and only if each such edit got to its audit entry, and consecutive contents differ only in audited columns if and only if none that did not had changed the question |
| VersionHistory.StepKeepsHistory | app/admin/questions.py:267-290 | The same for one edit |
| VersionHistory.QuietRunIsPaired | app/admin/questions.py:267-290 | When refused values are the only failures, contents always differ in audited columns only, and there is an entry for each version if and only if the table could hold the values of every edit that passed the checks |
| VersionHistory.RefusedValueIsUnlogged | app/admin/questions.py:267-290 | A request that passes the checks with a value the table cannot hold stores a version, leaves the question and the audit log, and reports an error |
| VersionHistory.LongTagBreaksPairs | supabase/migrations/20260518120000_phase2_new_tables.sql:20 | From a question without versions, a long skill tag and then a good edit leave two versions and one audit entry, for the second |
| VersionHistory.LostAuditIsUntold | app/admin/questions.py:277-290 | An exception between update and audit entry leaves a change that no entry lists |
| VersionHistory.VersionIsContentBefore | app/admin/questions.py:267-290 | Version k of a question holds, for good, its content just before the k-th edit that stored a version, whatever was raised then, and if that edit got so far an audit entry holds that number and the columns it gave |
| VersionHistory.RunOnlyAdds | app/admin/questions.py:267-275 | No version and no audit entry is lost or changed |
| VersionHistory.AnswersStayFit | app/admin/questions.py:252-265 | Once an edit has updated the question a nonblank answer is among the labels when there are options, and stays so |
| ReminderSweep.EntitledUsers | scripts/sweep_plan_reminders.py:66-96 | Whatever the page queries answer, each user on a page that is read comes out once, in the order of first mention |
| ReminderSweep.Chunked | scripts/sweep_plan_reminders.py:99-100 | Chunks of the size, a last one possibly smaller, that hold every user once in order |
| ReminderSweep.UnfinishedToday | scripts/sweep_plan_reminders.py:41-63 | The unfinished tasks of the first day of the plan with today's date |
| ReminderSweep.Outbox.Sweep | scripts/sweep_plan_reminders.py:103-186 | Pages, chunks and queries together come to visiting every eligible user with a plan once, in whatever order the profiles are answered |
| ReminderSweep.OrderHas | scripts/sweep_plan_reminders.py:119-145 | Visited are exactly the entitled users who want reminders, are active and have a plan |
| ReminderSweep.OrderIsSingle | scripts/sweep_plan_reminders.py:88-96 | Nobody is visited twice |
| ReminderSweep.Outbox.Enqueue | app/notifications/repository.py:114-139 | A reminder that is there is not added again; true exactly for a new row whose insert was confirmed |
| ReminderSweep.SweepBalances | scripts/sweep_plan_reminders.py:155-185 | Users with unfinished tasks are the enqueued and the skipped ones together |
| ReminderSweep.WhoIsReminded | scripts/sweep_plan_reminders.py:118-185 | Exactly who has a reminder after a sweep |
| ReminderSweep.RunKeepsSingle | scripts/sweep_plan_reminders.py:103-186 | Over any number of sweeps, on any days and whatever happens to inserts, no user has two reminders for a date |
| ReminderSweep.SecondSweepIsIdle | scripts/sweep_plan_reminders.py:156-185 | A second sweep over unchanged data, in any order, enqueues nothing exactly when no insert of the first failed |
| ReminderSweep.DryRunPredicts | scripts/sweep_plan_reminders.py:169-176 | A dry run writes nothing and reports what a real one would |
| SweepResults.AddedRowsSay | scripts/sweep_plan_reminders.py:128-185 | Every row a sweep adds is for a listed, active user who wants reminders, has an address and unfinished tasks and had no reminder, and says the address in lower case, the name, how many tasks there are and what the first five are called |
| SweepResults.WhoHears | scripts/sweep_plan_reminders.py:118-185 | After a sweep exactly such users, whose insert did not fail, have a reminder besides those who had one |
| SweepResults.CountsAreOfUsers | scripts/sweep_plan_reminders.py:103-186 | All six counts as numbers of users |
| SweepResults.FirstDayCounts | scripts/sweep_plan_reminders.py:41-63 | Only the first day with today's date counts |
| SweepResults.FinishedAreLeftOut | scripts/sweep_plan_reminders.py:54-62 | Tasks count unless they are done or skipped, in any letter case |
| BandRounding.RoundIsUnique | app/admin/review_comparison.py:10-11 | Nearest, and even when two are equally near, describes one integer |
| BandRounding.Thresholds | app/admin/review_comparison.py:10-36 | Overridden overall exactly above a quarter of a band, in agreement exactly below three quarters |
| BandRounding.OverallIsBand | app/admin/speaking_band.py:10-19 | From bands in [0, 9] a multiple of one half in [0, 9], within a quarter of the mean, the even number of halves on a tie |
| BandRounding.OverallIsMonotone | app/admin/speaking_band.py:14-19 | Raising a criterion never lowers the band |
| BandRounding.OverallIsOrderFree | app/admin/speaking_band.py:18-19 | The order of the criteria does not matter |
| ReviewAnalytics.IsOverridden | app/admin/review_comparison.py:20-36 | True exactly when some shared criterion or the overall band differs by more than a quarter, before rounding |
| ReviewAnalytics.Aggregate | app/admin/review_analytics.py:78-159 | The counting loop gives the counts, rates and means of the unrounded description |
| ReviewAnalytics.AgreedOrOverridden | app/admin/review_analytics.py:121-133 | Agreed and overridden overall are exactly the overall deltas and once more those strictly between the two thresholds; with criterion overrides they are at least that many |
| ReviewAnalytics.SummaryAddsUp | app/admin/review_analytics.py:86-159 | With and without AI make the completed, no sample count and no delta count exceeds those with AI, rates are in [0, 1] |
| ReviewAnalytics.PooledIsNear | app/admin/review_analytics.py:225-230 | Despite three roundings the pooled rate is in [0, 1] and within 0.001 of the exact one |
| ReviewAnalytics.PooledIsBetween | app/admin/review_analytics.py:225-230 | It lies between the two rates it is made of |
| ReviewAnalytics.Pool | app/admin/review_analytics.py:205-254 | Both rates of the combined report, from both row lists |
| ReviewRates.MaeIsNear | app/admin/review_comparison.py:66-70 | A mean error is within half a thousandth of the sum of the sizes of the differences over their number |
| ReviewRates.ReviewAdds | app/admin/review_analytics.py:100-140 | Each review adds, to the nearest half, its difference overall and on a criterion, exactly when both values are there |
| ReviewRates.BandsAre | app/admin/review_analytics.py:100-120 | The bands that are compared: the stored one, or the rounded mean of four scores |
| ReviewRates.VerdictsAre | app/admin/review_comparison.py:20-36 | A review agrees exactly below three quarters of a band, and is overridden exactly above a quarter, overall or on a criterion |
| ReviewRates.RateIsNear | app/admin/review_analytics.py:86-159 | A rate is within half a thousandth of part over whole |
| ReviewRates.CountsAre | app/admin/review_analytics.py:86-118 | Each review adds one to the counts whose condition it meets |

## Left out

- ForgeStore.Replay: starts from empty tables, has one failover and takes each store call as atomic; after a recovery stale database rows overwrite the mirror by design. Calls name stored sessions and responses, as the foreign keys demand and the service does (`ForgeFailover.RunsAreLegal`).
- ForgeStore.ForgeStore.UpsertEvaluation: the lookup by session must be truthful when it answers; a lookup that comes back empty by mistake leads to an insert that the unique index on evaluations refuses, so that the write stays in memory.
- Store rows: patches leave id, session_id, created_at and idempotency_key alone, the database fills in no columns, creation stamps of different calls differ, and uuid4 gives fresh ids; an event with a taken id does nothing.
- ForgeService: `upload_response_audio` and `evaluate_direct` are not part of this model; the upload only adds a storage write before a confirmation. Presigned URLs, prompts and content types are left out.
- ForgeService: whether a transcript holds a letter or digit, the coach card and the evaluator's version are inputs; JSON of the card is opaque.
- ForgeStore.Serve: the one refusal of a live database that is modelled is that of a repeated key; a row with a value that no column can hold, such as a NUL character in an idempotency key or a guest key, would be refused and kept in memory in the same way.
- ForgeService: its threads run on the plain store; of a run that repeats an idempotency key `ForgeStore.RepeatIsSeen` says only how the live database first departs from that.
- ListeningRoundTrip.LoadOfSave: passage and skill tag are not in the round trip, because rows of one question share them; answers that are null are empty ones; `upper` is modelled where it can give an ASCII letter.
- Base64Url: the decoder is the lenient one of CPython; what it makes of padding or foreign characters inside a text is modelled, but nothing is stated about it.
- UploadTicket: JSON and the MAC are parameters; the ticket header, origins and the strength of the MAC are left out.
- SqlRows: the `INSERT INTO mock_tests` statement and the comments around the list are left out; JSON text is a parameter.
- ListeningFlatten: transcript locations are left out; question numbers are integers.
- ReadingNumbers.QuestionTable.Delete: one delete at a time; caches and the admin log are left out.
- Reading save and load: they share the expansion of the listening builder and never merge, so they would only add easy members.
- PublishGate.PublishBlockers: rows come in the order of their sections; a section whose part is missing counts as part 0 in the source and is not modelled.
- PracticeCatalog: assignments, hubs, titles, jobs and caches are left out; a save is modelled as the section it stores, with the rows built elsewhere; statuses are the three that the database allows. An exception before an operation's first write changes nothing, and one after the insert of a new set leaves a set that is not published.
- VersionHistory: of the values that the database refuses those are named that the columns' types and checks and the NUL character rule out; any other failure is an exception at one of the stop points. `to_slug` and `str.upper` are function parameters; two edits at once, which the unique index on versions would refuse, are left out.
- ReminderSweep: a subscription that no page query lists, since the queries are unordered, is not seen; each user has one plan; two sweeps at once rest on the unique index and are left out.
- BandRounding: bands and rates are exact reals, not binary floats; scores that are no numbers are left out.
- ReviewAnalytics.Aggregate: fetching, dates and the JSON mapping of AI scores are left out; the combined mean absolute error is the unweighted mean of the two modules' and has no property worth stating.
- Speaking approve and reopen, mock orchestration, payments, notifications and provider calls are not part of this model.
