/** app/admin/listening_builder.py: a listening part is saved as numbered rows, a choose-two
    question as one row per letter, and loaded by merging neighbouring rows greedily. */
module ListeningBuilder {
  import opened Wrappers
  import opened Text
  import opened AnswerFormat

  const CHOOSE_TWO := "MCQ — choose TWO"
  const MCQ := "mcq"

  /** A question in the admin's form, on its way in or out. */
  datatype Question = Question(
    kind: string,
    prompt: string,
    instructions: Option<string>,
    options: Option<seq<Choice>>,
    correct: string,
    alts: seq<string>,
    skill: Option<string>,
    chooseTwo: bool)

  // ---------------------------------------------------------------------------------------
  // app/admin/listening_question_types.py

  const UI_TO_SLUG: map<string, string> := map[
    "Form completion" := "form_completion",
    "Note completion" := "note_completion",
    "Sentence completion" := "sentence_completion",
    "MCQ — single answer" := "mcq",
    "MCQ — choose TWO" := "mcq",
    "Matching" := "matching",
    "Table completion" := "table_completion",
    "Map/plan/diagram labelling" := "map_labeling",
    "Flow-chart completion" := "flowchart_completion",
    "Summary completion" := "summary_completion_box"]

  const SLUG_TO_UI: map<string, string> := map[
    "form_completion" := "Form completion",
    "note_completion" := "Note completion",
    "sentence_completion" := "Sentence completion",
    "mcq" := "MCQ — single answer",
    "matching" := "Matching",
    "table_completion" := "Table completion",
    "map_labeling" := "Map/plan/diagram labelling",
    "flowchart_completion" := "Flow-chart completion",
    "summary_completion_box" := "Summary completion"]

  function Slug(name: string): string {
    if name in UI_TO_SLUG then UI_TO_SLUG[name] else name
  }

  function Display(slug: string, chooseTwo: bool): string {
    if chooseTwo && slug == MCQ then CHOOSE_TWO
    else if slug in SLUG_TO_UI then SLUG_TO_UI[slug]
    else slug
  }

  /** Names are capitalised and their slugs are not. */
  lemma NamesAreNotSlugs(name: string)
    ensures name in UI_TO_SLUG ==> 'A' <= name[0] <= 'Z' && 'a' <= UI_TO_SLUG[name][0] <= 'z'
  {
  }

  lemma DisplayOfSlug(slug: string)
    ensures slug in SLUG_TO_UI ==> 'a' <= slug[0] <= 'z' && SLUG_TO_UI[slug] in UI_TO_SLUG && UI_TO_SLUG[SLUG_TO_UI[slug]] == slug
  {
  }

  /** Every stored slug is shown under a name that stores it again; a name is never a slug. */
  lemma SlugOfDisplay(slug: string, chooseTwo: bool)
    ensures slug !in UI_TO_SLUG ==> Slug(Display(slug, chooseTwo)) == slug
    ensures slug in UI_TO_SLUG ==> Slug(Display(slug, chooseTwo)) != slug
    ensures Slug(slug) !in UI_TO_SLUG
  {
    NamesAreNotSlugs(slug);
    NamesAreNotSlugs(Slug(slug));
    DisplayOfSlug(slug);
    assert CHOOSE_TWO in UI_TO_SLUG && UI_TO_SLUG[CHOOSE_TWO] == MCQ;
    assert MCQ == "mcq" && CHOOSE_TWO == "MCQ — choose TWO";
  }

  predicate IsLegacy(kind: string) {
    LowerText(kind) == "multiple_choice" || LowerText(kind) == "multiple-choice"
  }

  /** The legacy aliases are read as `mcq`. */
  function Current(kind: string): string {
    if IsLegacy(kind) then MCQ else kind
  }

  // ---------------------------------------------------------------------------------------
  // save_listening_part

  predicate IsChooseTwo(q: Question) {
    q.chooseTwo || q.kind == CHOOSE_TWO
  }

  function NonBlank(text: Option<string>): Option<string> {
    if text.Some? && Strip(text.value) != "" then Some(Strip(text.value)) else None
  }

  /** The first question of the part carries the part's instructions. */
  function PassageOf(q: Question, qnum: nat, instructions: Option<string>): Option<string> {
    if qnum == 1 && NonBlank(instructions).Some? then NonBlank(instructions) else NonBlank(q.instructions)
  }

  function BaseRow(q: Question, qnum: nat, instructions: Option<string>): Row {
    var slug := Slug(q.kind);
    Row(qnum, slug, q.prompt, PassageOf(q, qnum, instructions), q.options, "",
        if q.skill.Some? && q.skill.value != "" then q.skill.value else slug)
  }

  /** The rows of one question, not yet numbered. */
  function Expand(q: Question, qnum: nat, instructions: Option<string>): (rows: seq<Row>)
    ensures rows != []
  {
    var base := BaseRow(q, qnum, instructions);
    if IsChooseTwo(q) && base.kind == MCQ then ExpandChooseTwo(base, q.correct, q.alts)
    else [base.(answer := JoinAnswers(q.correct, q.alts))]
  }

  /** Number `qnum`; past the first row of the part, a row of a choose-two question keeps the
      passage only if the question has instructions of its own. */
  function Placed(row: Row, q: Question, qnum: nat): Row {
    row.(number := qnum,
         passage := if qnum > 1 && IsChooseTwo(q) && (q.instructions.None? || q.instructions.value == "") then None
                    else row.passage)
  }

  function PlacedAll(rows: seq<Row>, q: Question, qnum: nat): (r: seq<Row>)
    ensures |r| == |rows|
    ensures forall i :: 0 <= i < |rows| ==> r[i] == Placed(rows[i], q, qnum + i)
  {
    seq(|rows|, i requires 0 <= i < |rows| => Placed(rows[i], q, qnum + i))
  }

  /** The rows of the part from question number `qnum` on. */
  function RowsOf(qs: seq<Question>, qnum: nat, instructions: Option<string>): seq<Row> {
    if qs == [] then [] else
    var rows := Expand(qs[0], qnum, instructions);
    PlacedAll(rows, qs[0], qnum) + RowsOf(qs[1..], qnum + |rows|, instructions)
  }

  /** Every later row of a choose-two question has the passage of its first row, shared
      instructions included, when the question has instructions of its own, and none otherwise. */
  lemma {:induction false} LaterRowsKeepPassage(q: Question, qnum: nat, instructions: Option<string>, j: nat)
    requires qnum >= 1 && IsChooseTwo(q) && Slug(q.kind) == MCQ && |ParseChooseTwo(q.correct)| >= 2
    requires 0 < j < |Expand(q, qnum, instructions)|
    ensures PlacedAll(Expand(q, qnum, instructions), q, qnum)[j].passage
         == if q.instructions.None? || q.instructions.value == "" then None else PassageOf(q, qnum, instructions)
  {
  }

  method PlaceRows(rows: seq<Row>, q: Question, first: nat) returns (placed: seq<Row>, qnum: nat)
    ensures placed == PlacedAll(rows, q, first) && qnum == first + |rows|
  {
    placed, qnum := [], first;
    for j := 0 to |rows|
      invariant qnum == first + j
      invariant placed == PlacedAll(rows, q, first)[..j]
    {
      placed := placed + [Placed(rows[j], q, qnum)];
      qnum := qnum + 1;
    }
  }

  method SaveRows(qs: seq<Question>, instructions: Option<string>) returns (inserts: seq<Row>)
    ensures inserts == RowsOf(qs, 1, instructions)
  {
    hide Expand, PlacedAll, RowsOf;
    inserts := [];
    NothingToSave(instructions);
    var qnum := 1;
    for k := 0 to |qs|
      invariant inserts + RowsOf(qs[k..], qnum, instructions) == RowsOf(qs, 1, instructions)
    {
      assert qs[k..] == [qs[k]] + qs[k + 1..];
      SaveUnfolds(qs[k], qs[k + 1..], qnum, instructions);
      ghost var before := inserts;
      var placed, next := PlaceRows(Expand(qs[k], qnum, instructions), qs[k], qnum);
      inserts, qnum := inserts + placed, next;
      assert before + (placed + RowsOf(qs[k + 1..], qnum, instructions)) == inserts + RowsOf(qs[k + 1..], qnum, instructions);
    }
  }

  // ---------------------------------------------------------------------------------------
  // load_listening_part

  predicate LooksChooseTwo(kind: string, primary: string) {
    || kind == CHOOSE_TWO
    || (Slug(kind) == MCQ && |Kept(Split(primary, ','))| >= 2)
    || (kind == MCQ && ',' in primary)
  }

  function LoadedSingle(row: Row): Question {
    var (primary, alts) := SplitAnswers(row.answer);
    var kind := Current(row.kind);
    var chooseTwo := LooksChooseTwo(kind, primary);
    Question(Display(kind, chooseTwo), row.prompt, row.passage, row.options, primary, alts, Some(row.skill), chooseTwo)
  }

  function LoadedPair(a: Row, b: Row): Question {
    Question(Display(Current(a.kind), true), a.prompt, a.passage, a.options,
             Join([UpperText(Strip(a.answer)), UpperText(Strip(b.answer))], ","), [], Some(a.skill), true)
  }

  predicate StartsWithPair(rows: seq<Row>) {
    |rows| >= 2 && IsPair(rows[0], rows[1])
  }

  /** The questions of the rows: each pair is merged as soon as it is met. */
  function QuestionsOf(rows: seq<Row>): seq<Question> {
    if rows == [] then []
    else if StartsWithPair(rows) then [LoadedPair(rows[0], rows[1])] + QuestionsOf(rows[2..])
    else [LoadedSingle(rows[0])] + QuestionsOf(rows[1..])
  }

  method LoadRows(rows: seq<Row>) returns (questions: seq<Question>)
    ensures questions == QuestionsOf(rows)
  {
    hide LoadedSingle, LoadedPair, IsPair;
    questions := [];
    var i := 0;
    while i < |rows|
      invariant i <= |rows|
      invariant questions + QuestionsOf(rows[i..]) == QuestionsOf(rows)
    {
      assert rows[i..][0] == rows[i] && rows[i..][1..] == rows[i + 1..];
      var question := LoadedSingle(rows[i]);
      if i + 1 < |rows| && IsPair(rows[i], rows[i + 1]) {
        assert rows[i..][1] == rows[i + 1] && rows[i..][2..] == rows[i + 2..];
        question := LoadedPair(rows[i], rows[i + 1]);
        i := i + 1;
      }
      questions := questions + [question];
      i := i + 1;
    }
  }

  // ---------------------------------------------------------------------------------------
  // Re-saving a loaded part

  /** Equal, or the same single letter in another case. */
  predicate SameAnswer(x: string, y: string) {
    x == y || (IsLetter(x) && IsLetter(y) && UpperText(x) == UpperText(y))
  }

  /** The same row up to letter case and to empty or absent options. */
  predicate SameRow(a: Row, b: Row) {
    && a.number == b.number && a.kind == b.kind && a.prompt == b.prompt
    && OptionsOf(a) == OptionsOf(b) && SameAnswer(a.answer, b.answer)
  }

  predicate SameRows(a: seq<Row>, b: seq<Row>) {
    |a| == |b| && forall i :: 0 <= i < |a| ==> SameRow(a[i], b[i])
  }

  predicate AreNumbered(rows: seq<Row>, qnum: nat) {
    forall i :: 0 <= i < |rows| ==> rows[i].number == qnum + i
  }

  /** Answers that strip to one letter are that letter, as every saved answer is. */
  predicate AreBare(rows: seq<Row>) {
    forall i :: 0 <= i < |rows| && IsLetter(Strip(rows[i].answer)) ==> IsLetter(rows[i].answer)
  }

  /** A row that comes back by itself: a current slug, a clean answer, and no choose-two cell. */
  predicate IsStable(row: Row) {
    && row.kind !in UI_TO_SLUG && !IsLegacy(row.kind)
    && IsClean(row.answer)
    && (row.kind == MCQ ==> |ParseChooseTwo(SplitAnswers(row.answer).0)| < 2)
  }

  /** Every row that the load does not merge is stable. */
  predicate AreStable(rows: seq<Row>) {
    rows == [] ||
    (if StartsWithPair(rows) then AreStable(rows[2..]) else IsStable(rows[0]) && AreStable(rows[1..]))
  }

  lemma PrimaryIsFree(answer: string)
    ensures '/' !in SplitAnswers(answer).0
  {
    SplitIsFree(answer, '/');
    KeptIsClean(Split(answer, '/'));
  }

  lemma LetterIsClean(answer: string)
    requires IsLetter(answer)
    ensures IsClean(answer) && SplitAnswers(answer) == (answer, []) && |ParseChooseTwo(answer)| < 2
  {
    UpperOfLetter(answer);
    SplitOfPiece(answer, '/');
    StripTrims(answer);
    ParseOfPlain(answer);
    KeptOfClean([answer]);
  }

  lemma McqIsCurrent()
    ensures !IsLegacy(MCQ) && MCQ !in UI_TO_SLUG && CHOOSE_TWO != MCQ
  {
  }

  /** A stable row is saved again as itself. */
  lemma StableRowComesBack(row: Row, instructions: Option<string>)
    requires IsStable(row)
    ensures var rows := Expand(LoadedSingle(row), row.number, instructions);
            && |rows| == 1
            && SameRow(Placed(rows[0], LoadedSingle(row), row.number), row)
  {
    hide Display, Slug, ParseChooseTwo, IsLegacy, IsClean;
    var q := LoadedSingle(row);
    SlugOfDisplay(row.kind, q.chooseTwo);
    JoinOfSplitAnswers(row.answer);
  }

  /** An unstable row is not. */
  lemma UnstableRowChanges(row: Row, instructions: Option<string>)
    requires !IsStable(row)
    ensures var rows := Expand(LoadedSingle(row), row.number, instructions);
            !SameRow(Placed(rows[0], LoadedSingle(row), row.number), row)
  {
    hide Display, Slug, ParseChooseTwo, IsClean;
    var q := LoadedSingle(row);
    McqIsCurrent();
    SlugOfDisplay(Current(row.kind), q.chooseTwo);
    JoinOfSplitAnswers(row.answer);
    ParsedAreLetters(q.correct);
    PrimaryIsFree(row.answer);
    if ',' !in q.correct {
      ParseOfPlain(q.correct);
    }
    if IsLetter(row.answer) {
      LetterIsClean(row.answer);
    }
  }

  /** Merged neighbours are saved again as their two letters. */
  lemma PairComesBack(a: Row, b: Row, instructions: Option<string>)
    requires IsPair(a, b) && IsLetter(a.answer) && IsLetter(b.answer)
    requires b.number == a.number + 1
    ensures var q := LoadedPair(a, b);
            var rows := Expand(q, a.number, instructions);
            && |rows| == 2
            && SameRow(Placed(rows[0], q, a.number), a)
            && SameRow(Placed(rows[1], q, b.number), b)
  {
    hide Display, Slug, ParseChooseTwo;
    McqIsCurrent();
    SlugOfDisplay(MCQ, true);
    UpperOfLetter(a.answer);
    UpperOfLetter(b.answer);
    StripTrims(a.answer);
    StripTrims(b.answer);
    ParseOfPair(UpperText(a.answer), UpperText(b.answer));
  }

  function HeadOf(rows: seq<Row>): Question
    requires rows != []
  {
    if StartsWithPair(rows) then LoadedPair(rows[0], rows[1]) else LoadedSingle(rows[0])
  }

  function RestOf(rows: seq<Row>): seq<Row>
    requires rows != []
  {
    if StartsWithPair(rows) then rows[2..] else rows[1..]
  }

  function Resaved(rows: seq<Row>, qnum: nat, instructions: Option<string>): seq<Row> {
    RowsOf(QuestionsOf(rows), qnum, instructions)
  }

  lemma {:induction false} LoadUnfolds(rows: seq<Row>)
    requires rows != []
    ensures QuestionsOf(rows) == [HeadOf(rows)] + QuestionsOf(RestOf(rows))
    ensures AreStable(rows) <==> (StartsWithPair(rows) || IsStable(rows[0])) && AreStable(RestOf(rows))
  {
  }

  lemma NothingToSave(instructions: Option<string>)
    ensures forall qnum :: RowsOf([], qnum, instructions) == []
  {
  }

  lemma {:induction false} SaveUnfolds(q: Question, qs: seq<Question>, qnum: nat, instructions: Option<string>)
    ensures var expanded := Expand(q, qnum, instructions);
            RowsOf([q] + qs, qnum, instructions)
            == PlacedAll(expanded, q, qnum) + RowsOf(qs, qnum + |expanded|, instructions)
  {
  }

  lemma {:induction false} ResaveUnfolds(rows: seq<Row>, qnum: nat, instructions: Option<string>)
    requires rows != []
    ensures var expanded := Expand(HeadOf(rows), qnum, instructions);
            Resaved(rows, qnum, instructions)
            == PlacedAll(expanded, HeadOf(rows), qnum) + Resaved(RestOf(rows), qnum + |expanded|, instructions)
    ensures AreStable(rows) <==> (StartsWithPair(rows) || IsStable(rows[0])) && AreStable(RestOf(rows))
  {
    hide Expand, IsStable, HeadOf, RestOf, QuestionsOf, RowsOf, AreStable, PlacedAll;
    LoadUnfolds(rows);
    SaveUnfolds(HeadOf(rows), QuestionsOf(RestOf(rows)), qnum, instructions);
  }

  /** Loading rows and saving the questions gives the same rows back exactly when every row
      that is not merged is stable: mis-merged neighbours and rows of a choose-three question
      come back, too. */
  lemma {:induction false} ResaveIsFixpoint(rows: seq<Row>, qnum: nat, instructions: Option<string>)
    requires AreNumbered(rows, qnum) && AreBare(rows)
    ensures SameRows(Resaved(rows, qnum, instructions), rows) <==> AreStable(rows)
  {
    hide Expand, IsStable, SameRow, Placed, LoadedSingle, LoadedPair, IsPair, AreStable, Resaved;
    if rows == [] {
      NothingToResave(qnum, instructions);
    } else {
      ResaveUnfolds(rows, qnum, instructions);
      var q := HeadOf(rows);
      var placed := PlacedAll(Expand(q, qnum, instructions), q, qnum);
      if StartsWithPair(rows) {
        PairIsBare(rows);
        PairComesBack(rows[0], rows[1], instructions);
        SameAfterPrefix(placed, rows[..2], Resaved(rows[2..], qnum + 2, instructions), rows[2..]);
        assert rows == rows[..2] + rows[2..];
        ResaveIsFixpoint(rows[2..], qnum + 2, instructions);
      } else if IsStable(rows[0]) {
        StableRowComesBack(rows[0], instructions);
        SameAfterPrefix(placed, rows[..1], Resaved(rows[1..], qnum + 1, instructions), rows[1..]);
        assert rows == rows[..1] + rows[1..];
        ResaveIsFixpoint(rows[1..], qnum + 1, instructions);
      } else {
        UnstableRowChanges(rows[0], instructions);
        assert Resaved(rows, qnum, instructions)[0] == placed[0];
      }
    }
  }

  lemma NothingToResave(qnum: nat, instructions: Option<string>)
    ensures Resaved([], qnum, instructions) == [] && AreStable([])
  {
  }

  lemma PairIsBare(rows: seq<Row>)
    requires StartsWithPair(rows) && AreBare(rows)
    ensures IsLetter(rows[0].answer) && IsLetter(rows[1].answer)
  {
  }

  lemma SameAfterPrefix(a: seq<Row>, b: seq<Row>, a': seq<Row>, b': seq<Row>)
    requires |a| == |b| && SameRows(a, b)
    ensures SameRows(a + a', b + b') <==> SameRows(a', b')
  {
    hide SameRow;
    if SameRows(a + a', b + b') {
      forall i | 0 <= i < |a'| ensures SameRow(a'[i], b'[i]) {
        assert (a + a')[|a| + i] == a'[i] && (b + b')[|a| + i] == b'[i];
      }
    }
  }

  /** What every saved row is: numbered in turn, with a current slug, and bare when a letter. */
  lemma {:induction false} SavedRows(qs: seq<Question>, qnum: nat, instructions: Option<string>)
    ensures var rows := RowsOf(qs, qnum, instructions);
            && AreNumbered(rows, qnum) && AreBare(rows)
            && forall i :: 0 <= i < |rows| ==> rows[i].kind !in UI_TO_SLUG
  {
    hide Expand, Slug, ParseChooseTwo, JoinAnswers;
    if qs != [] {
      var rows := Expand(qs[0], qnum, instructions);
      SavedRows(qs[1..], qnum + |rows|, instructions);
      ExpandedRows(qs[0], qnum, instructions);
    }
  }

  lemma ExpandedRows(q: Question, qnum: nat, instructions: Option<string>)
    ensures forall row :: row in Expand(q, qnum, instructions) ==>
              && row.kind == Slug(q.kind) && row.kind !in UI_TO_SLUG
              && (IsLetter(Strip(row.answer)) ==> IsLetter(row.answer))
  {
    hide Slug, ParseChooseTwo, JoinAnswers;
    SlugOfDisplay(q.kind, false);
    McqIsCurrent();
    ParsedAreLetters(q.correct);
    if IsLetter(Strip(JoinAnswers(q.correct, q.alts))) {
      JoinedLetter(q.correct, q.alts);
    }
  }

  /** Of a part that the admin saved: saving it again after a load keeps it exactly when every
      row that the load does not merge is stable. */
  lemma {:induction false} SavedPartComesBack(qs: seq<Question>, instructions: Option<string>, again: Option<string>)
    ensures var rows := RowsOf(qs, 1, instructions);
            SameRows(Resaved(rows, 1, again), rows) <==> AreStable(rows)
  {
    SavedRows(qs, 1, instructions);
    ResaveIsFixpoint(RowsOf(qs, 1, instructions), 1, again);
  }

  lemma LettersNeedCommas(primary: string)
    requires '/' !in primary && IsTrimmed(primary) && |ParseChooseTwo(primary)| >= 2
    ensures ',' in primary && |Kept(Split(primary, ','))| >= 2
  {
    StripTrims(primary);
    if ',' !in primary {
      ParseOfPlain(primary);
    }
    FewLetters(Kept(Split(primary, ',')));
  }

  lemma {:induction false} FewLetters(parts: seq<string>)
    ensures |Letters(parts)| <= |parts|
  {
    if parts != [] {
      FewLetters(parts[1..]);
    }
  }

  /** Joining the pieces of any answer leaves a clean one with the same primary. */
  lemma JoinedIsClean(answer: string)
    ensures var (primary, alts) := SplitAnswers(answer);
            && '/' !in primary && IsTrimmed(primary)
            && IsClean(JoinAnswers(primary, alts))
            && SplitAnswers(JoinAnswers(primary, alts)) == (primary, alts)
  {
    var parts := Kept(Split(answer, '/'));
    SplitIsFree(answer, '/');
    KeptIsClean(Split(answer, '/'));
    var (primary, alts) := SplitAnswers(answer);
    SplitOfJoinAnswers(primary, alts);
    JoinOfSplitAnswers(JoinAnswers(primary, alts));
  }

  lemma SlugsAreShort(name: string)
    ensures name in UI_TO_SLUG ==> UI_TO_SLUG[name][0] != 'm' || |UI_TO_SLUG[name]| <= 12
  {
  }

  lemma LegacyIsLong(kind: string)
    requires IsLegacy(kind)
    ensures |kind| == 15 && (kind[0] == 'm' || kind[0] == 'M')
  {
  }

  lemma CurrentSlugs(kind: string, chooseTwo: bool)
    ensures var slug := Slug(Display(Current(kind), chooseTwo));
            slug !in UI_TO_SLUG && !IsLegacy(slug)
    ensures Current(kind) !in UI_TO_SLUG ==> Slug(Display(Current(kind), chooseTwo)) == Current(kind)
    ensures Slug(Current(kind)) == MCQ && chooseTwo ==> Slug(Display(Current(kind), chooseTwo)) == MCQ
    ensures Slug(Current(kind)) != MCQ ==> Slug(Display(Current(kind), chooseTwo)) != MCQ
  {
    hide IsLegacy;
    var name := Current(kind);
    McqIsCurrent();
    SlugOfDisplay(name, chooseTwo);
    NamesAreNotSlugs(name);
    SlugsAreShort(name);
    DisplayOfSlug(name);
    var slug := Slug(Display(name, chooseTwo));
    if IsLegacy(slug) {
      LegacyIsLong(slug);
    }
  }

  /** Whatever the row was, the rows it is saved again as are stable. */
  lemma ResavedIsStable(row: Row, qnum: nat, instructions: Option<string>)
    ensures forall r :: r in Expand(LoadedSingle(row), qnum, instructions) ==> IsStable(r)
  {
    hide Display, Slug, ParseChooseTwo, IsLegacy, IsClean, JoinAnswers, SplitAnswers;
    var q := LoadedSingle(row);
    CurrentSlugs(row.kind, q.chooseTwo);
    JoinedIsClean(row.answer);
    McqIsCurrent();
    ParsedAreLetters(q.correct);
    if |ParseChooseTwo(q.correct)| >= 2 {
      LettersNeedCommas(q.correct);
    }
    forall r | r in Expand(q, qnum, instructions) ensures IsStable(r) {
      if IsLetter(r.answer) {
        LetterIsClean(r.answer);
      }
    }
  }

  lemma PairIsSavedStable(a: Row, b: Row, qnum: nat, instructions: Option<string>)
    requires IsPair(a, b)
    ensures forall r :: r in Expand(LoadedPair(a, b), qnum, instructions) ==> IsStable(r)
  {
    hide Display, Slug, ParseChooseTwo, IsLegacy, IsClean;
    McqIsCurrent();
    SlugOfDisplay(MCQ, true);
    var x, y := UpperText(Strip(a.answer)), UpperText(Strip(b.answer));
    UpperOfLetter(Strip(a.answer));
    UpperOfLetter(Strip(b.answer));
    ParseOfPair(x, y);
    LetterIsClean(x);
    LetterIsClean(y);
  }

  predicate AllAreStable(rows: seq<Row>) {
    forall i :: 0 <= i < |rows| ==> IsStable(rows[i])
  }

  lemma {:induction false} ResavedAreStable(rows: seq<Row>, qnum: nat, instructions: Option<string>)
    ensures AllAreStable(Resaved(rows, qnum, instructions))
  {
    hide Expand, IsStable, LoadedSingle, LoadedPair, IsPair, Placed, Resaved;
    if rows == [] {
      NothingToResave(qnum, instructions);
    } else {
      var q := HeadOf(rows);
      var expanded := Expand(q, qnum, instructions);
      if StartsWithPair(rows) {
          PairIsSavedStable(rows[0], rows[1], qnum, instructions);
      } else {
        ResavedIsStable(rows[0], qnum, instructions);
      }
      ResaveUnfolds(rows, qnum, instructions);
      ResavedAreStable(RestOf(rows), qnum + |expanded|, instructions);
      var placed := PlacedAll(expanded, q, qnum);
      forall i | 0 <= i < |placed| ensures IsStable(placed[i]) {
        assert expanded[i] in expanded;
        PlacingKeepsStable(expanded[i], q, qnum + i);
      }
    }
  }

  lemma PlacingKeepsStable(row: Row, q: Question, qnum: nat)
    ensures IsStable(Placed(row, q, qnum)) <==> IsStable(row)
  {
  }

  lemma {:induction false} AllStable(rows: seq<Row>)
    requires AllAreStable(rows)
    ensures AreStable(rows)
  {
    hide IsStable;
    if rows != [] {
      AllStable(RestOf(rows));
    }
  }

  /** One load and save settles any stored rows, legacy types, stray blanks and comma cells
      included: every later load and save gives the same rows back. */
  lemma {:induction false} ResaveSettles(rows: seq<Row>, instructions: Option<string>, again: Option<string>)
    ensures var resaved := Resaved(rows, 1, instructions);
            SameRows(Resaved(resaved, 1, again), resaved)
  {
    var resaved := Resaved(rows, 1, instructions);
    ResavedAreStable(rows, 1, instructions);
    AllStable(resaved);
    SavedRows(QuestionsOf(rows), 1, instructions);
    ResaveIsFixpoint(resaved, 1, again);
  }
}
