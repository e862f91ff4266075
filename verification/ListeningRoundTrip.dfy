/** Saving a listening part and loading it gives the admin's questions back exactly when the
    greedy merge has no chance to cross from one question into the next. */
module ListeningRoundTrip {
  import opened Wrappers
  import opened Text
  import opened AnswerFormat
  import opened ListeningBuilder

  /** A choose-two question names two letters; any other has trimmed answers without slashes,
      and no comma when it is a multiple-choice question. */
  predicate IsPlain(q: Question) {
    if IsChooseTwo(q) then
      Slug(q.kind) == MCQ && |ParseChooseTwo(q.correct)| == 2
    else
      && IsTrimmed(q.correct) && AreClean(q.alts) && Free([q.correct] + q.alts, '/')
      && (q.correct != "" || q.alts == [])
      && (Current(Slug(q.kind)) == MCQ ==> ',' !in q.correct)
  }

  /** The question without the passage and the skill tag, which are shared between rows. */
  function Core(q: Question): Question { q.(instructions := None, skill := None) }

  /** What the admin should see again. */
  function Shown(q: Question): Question {
    Core(q).(
      kind := Display(Current(Slug(q.kind)), IsChooseTwo(q)),
      correct := if IsChooseTwo(q) then Join(ParseChooseTwo(q.correct), ",") else q.correct,
      alts := if IsChooseTwo(q) then [] else q.alts,
      chooseTwo := IsChooseTwo(q))
  }

  function Cores(qs: seq<Question>): (r: seq<Question>)
    ensures |r| == |qs| && forall i :: 0 <= i < |qs| ==> r[i] == Core(qs[i])
  {
    seq(|qs|, i requires 0 <= i < |qs| => Core(qs[i]))
  }

  function ShownAll(qs: seq<Question>): (r: seq<Question>)
    ensures |r| == |qs| && forall i :: 0 <= i < |qs| ==> r[i] == Shown(qs[i])
  {
    seq(|qs|, i requires 0 <= i < |qs| => Shown(qs[i]))
  }

  /** The question is stored under a single letter, at least in its first row. */
  predicate IsLetterQuestion(q: Question) {
    Slug(q.kind) == MCQ && (IsChooseTwo(q) || (q.alts == [] && IsLetter(q.correct)))
  }

  /** Two neighbours that look like one choose-two question: the first is none itself, both are
      answered by a letter, and prompt and options are equal. */
  predicate Meet(q: Question, next: Question) {
    && !IsChooseTwo(q) && IsLetterQuestion(q) && IsLetterQuestion(next)
    && q.prompt == next.prompt
    && (if q.options.None? then [] else q.options.value) == (if next.options.None? then [] else next.options.value)
  }

  predicate NoneMeet(qs: seq<Question>) {
    forall k :: 0 <= k < |qs| - 1 ==> !Meet(qs[k], qs[k + 1])
  }

  /** The first stored row of a question. */
  lemma FirstRow(q: Question, qnum: nat, instructions: Option<string>)
    requires IsPlain(q)
    ensures var row := Placed(Expand(q, qnum, instructions)[0], q, qnum);
            && row.kind == Slug(q.kind) && row.prompt == q.prompt && row.options == q.options
            && (row.kind == MCQ ==> (IsLetter(Strip(row.answer)) <==> IsLetterQuestion(q)))
  {
    hide Slug, ParseChooseTwo;
    ParsedAreLetters(q.correct);
    if IsChooseTwo(q) {
      UpperOfLetter(ParseChooseTwo(q.correct)[0]);
      StripTrims(ParseChooseTwo(q.correct)[0]);
    } else {
      var joined := JoinAnswers(q.correct, q.alts);
      StripTrims(q.correct);
      KeptOfClean(q.alts);
      if IsLetter(Strip(joined)) {
        JoinedLetter(q.correct, q.alts);
      }
    }
  }

  /** A plain question that is no choose-two question is stored in one row and comes back. */
  lemma SingleComesBack(q: Question, qnum: nat, instructions: Option<string>)
    requires IsPlain(q) && !IsChooseTwo(q)
    ensures var rows := Expand(q, qnum, instructions);
            |rows| == 1 && Core(LoadedSingle(Placed(rows[0], q, qnum))) == Shown(q)
  {
    hide ParseChooseTwo, Display, IsLegacy;
    SplitOfJoinAnswers(q.correct, q.alts);
    SlugOfDisplay(q.kind, false);
    McqIsCurrent();
    NamesAreNotSlugs(CHOOSE_TWO);
    assert CHOOSE_TWO in UI_TO_SLUG;
    if ',' !in q.correct {
      SplitOfPiece(q.correct, ',');
      KeptIsClean([q.correct]);
    }
  }

  /** A plain choose-two question is stored as a pair and merged back. */
  lemma PairComesBack(q: Question, qnum: nat, instructions: Option<string>)
    requires IsPlain(q) && IsChooseTwo(q)
    ensures var rows := PlacedAll(Expand(q, qnum, instructions), q, qnum);
            |rows| == 2 && IsPair(rows[0], rows[1]) && Core(LoadedPair(rows[0], rows[1])) == Shown(q)
  {
    hide ParseChooseTwo, Display, Slug;
    McqIsCurrent();
    ParsedAreLetters(q.correct);
    var letters := ParseChooseTwo(q.correct);
    UpperOfLetter(letters[0]);
    UpperOfLetter(letters[1]);
    StripTrims(letters[0]);
    StripTrims(letters[1]);
    assert letters == [letters[0], letters[1]];
  }

  /** Save then load is the identity on what the admin sees if and only if no two neighbours
      meet. */
  lemma {:induction false} LoadOfSave(qs: seq<Question>, qnum: nat, instructions: Option<string>)
    requires forall k :: 0 <= k < |qs| ==> IsPlain(qs[k])
    ensures Cores(QuestionsOf(RowsOf(qs, qnum, instructions))) == ShownAll(qs) <==> NoneMeet(qs)
  {
    hide IsPlain, Expand, Placed, Core, Shown, LoadedSingle, LoadedPair, IsPair, Meet;
    if qs != [] {
      var q, rest := qs[0], qs[1..];
      var placed := PlacedAll(Expand(q, qnum, instructions), q, qnum);
      var tail := RowsOf(rest, qnum + |placed|, instructions);
      var rows := RowsOf(qs, qnum, instructions);
      LoadOfSave(rest, qnum + |placed|, instructions);
      NoneMeetStep(qs);
      assert rows == placed + tail;
      if IsChooseTwo(q) {
        PairComesBack(q, qnum, instructions);
        assert rows[2..] == tail && StartsWithPair(rows);
        ConsIff(LoadedPair(rows[0], rows[1]), QuestionsOf(tail), QuestionsOf(rows), qs);
        ChooseTwoMeetsNone(q, rest);
      } else {
        SingleComesBack(q, qnum, instructions);
        assert rows[1..] == tail;
        MeetIff(q, rest, qnum, instructions);
        if StartsWithPair(rows) {
          PairIsNotShown(rows[0], rows[1], q);
          assert Cores(QuestionsOf(rows))[0] != ShownAll(qs)[0];
        } else {
          ConsIff(LoadedSingle(rows[0]), QuestionsOf(tail), QuestionsOf(rows), qs);
        }
      }
    }
  }

  lemma NoneMeetStep(qs: seq<Question>)
    requires qs != []
    ensures NoneMeet(qs) <==> (|qs| > 1 ==> !Meet(qs[0], qs[1])) && NoneMeet(qs[1..])
  {
  }

  lemma ChooseTwoMeetsNone(q: Question, rest: seq<Question>)
    requires IsChooseTwo(q)
    ensures rest != [] ==> !Meet(q, rest[0])
  {
  }

  lemma PairIsNotShown(a: Row, b: Row, q: Question)
    requires !IsChooseTwo(q)
    ensures Core(LoadedPair(a, b)) != Shown(q)
  {
  }

  /** The row of a single question and the next row look like a pair exactly when the two
      questions meet. */
  lemma MeetIff(q: Question, rest: seq<Question>, qnum: nat, instructions: Option<string>)
    requires IsPlain(q) && !IsChooseTwo(q) && (rest != [] ==> IsPlain(rest[0]))
    ensures var row := Placed(Expand(q, qnum, instructions)[0], q, qnum);
            StartsWithPair([row] + RowsOf(rest, qnum + 1, instructions)) <==> rest != [] && Meet(q, rest[0])
  {
    hide IsPlain, Expand, Placed, Slug;
    FirstRow(q, qnum, instructions);
    if rest != [] {
      FirstRow(rest[0], qnum + 1, instructions);
    }
  }

  lemma ConsIff(q: Question, tail: seq<Question>, loaded: seq<Question>, qs: seq<Question>)
    requires qs != [] && loaded == [q] + tail && Core(q) == Shown(qs[0])
    ensures Cores(loaded) == ShownAll(qs) <==> Cores(tail) == ShownAll(qs[1..])
  {
  }

  /** The part as the admin saves it. */
  lemma {:induction false} PartComesBack(qs: seq<Question>, instructions: Option<string>)
    requires forall k :: 0 <= k < |qs| ==> IsPlain(qs[k])
    ensures Cores(QuestionsOf(RowsOf(qs, 1, instructions))) == ShownAll(qs) <==> NoneMeet(qs)
  {
    LoadOfSave(qs, 1, instructions);
  }

  /** A question as the form gives it: a type by its name, the choose-two flag with the choose-two
      type, and then two upper-case letters with a comma. */
  predicate IsFormed(q: Question) {
    && q.kind in UI_TO_SLUG
    && q.chooseTwo == (q.kind == CHOOSE_TWO)
    && (q.chooseTwo ==> q.alts == [] && IsLetterPair(q.correct))
  }

  predicate IsLetterPair(text: string) {
    |text| == 3 && 'A' <= text[0] <= 'Z' && text[1] == ',' && 'A' <= text[2] <= 'Z'
  }

  /** What the admin should see of such a question is the question. */
  lemma {:induction false} FormedIsShown(q: Question)
    requires IsFormed(q)
    ensures Shown(q) == Core(q)
  {
    hide ParseChooseTwo;
    FormedSlug(q.kind);
    if q.chooseTwo {
      var (x, y) := (q.correct[..1], q.correct[2..]);
      assert q.correct == Join([x, y], ",");
      ParseOfPair(x, y);
    }
  }

  lemma FormedSlug(kind: string)
    requires kind in UI_TO_SLUG
    ensures Display(Current(UI_TO_SLUG[kind]), kind == CHOOSE_TWO) == kind
  {
    NamesAreCurrent();
  }

  lemma NamesAreCurrent()
    ensures forall name :: name in UI_TO_SLUG ==> !IsLegacy(UI_TO_SLUG[name])
  {
    forall name | name in UI_TO_SLUG ensures !IsLegacy(UI_TO_SLUG[name]) {
      SlugsAreShort(name);
      NamesAreNotSlugs(name);
      if IsLegacy(UI_TO_SLUG[name]) {
        LegacyIsLong(UI_TO_SLUG[name]);
      }
    }
  }

  /** So such a part comes back as it was, if and only if no two neighbours meet. */
  lemma {:induction false} FormedPartComesBack(qs: seq<Question>, instructions: Option<string>)
    requires forall k :: 0 <= k < |qs| ==> IsPlain(qs[k]) && IsFormed(qs[k])
    ensures Cores(QuestionsOf(RowsOf(qs, 1, instructions))) == Cores(qs) <==> NoneMeet(qs)
  {
    hide IsPlain, Core, Shown, IsFormed;
    PartComesBack(qs, instructions);
    forall k | 0 <= k < |qs| ensures Shown(qs[k]) == Core(qs[k]) {
      FormedIsShown(qs[k]);
    }
    assert ShownAll(qs) == Cores(qs);
  }
}
