/** Questions with two or more correct letters: what the parse of the admin's answer gives, and the
    rows that a part is saved as, column by column. */
module ChooseLetters {
  import opened Wrappers
  import opened Text
  import opened AnswerFormat
  import opened ListeningBuilder

  /** A single letter in either case, between any spaces. */
  predicate AreLetters(pieces: seq<string>) {
    forall k :: 0 <= k < |pieces| ==> IsLetter(Strip(pieces[k]))
  }

  lemma {:induction false} KeptOfParts(a: seq<string>, b: seq<string>)
    ensures Kept(a + b) == Kept(a) + Kept(b)
  {
    if a == [] {
      assert a + b == b;
    } else {
      KeptOfParts(a[1..], b);
      assert (a + b)[1..] == a[1..] + b;
    }
  }

  lemma {:induction false} SplitOfOneMore(s: string, c: char, sep: char)
    requires c != sep
    ensures var parts := Split(s, sep);
            Split(s + [c], sep) == parts[..|parts| - 1] + [parts[|parts| - 1] + [c]]
  {
    if s == "" {
      assert s + [c] == [c] && [c][1..] == "";
      assert Split("", sep) == [""] && Split([c], sep) == [[c] + ""] + [];
      assert [c] + "" == [c] && "" + [c] == [c];
    } else {
      SplitOfOneMore(s[1..], c, sep);
      assert (s + [c])[1..] == s[1..] + [c];
      var rest := Split(s[1..], sep);
      var more := rest[..|rest| - 1] + [rest[|rest| - 1] + [c]];
      if s[0] == sep {
        assert [""] + more == ([""] + rest)[..|rest|] + [([""] + rest)[|rest|] + [c]];
      } else {
        HeadOfOneMore(s[0], rest, c);
      }
    }
  }

  lemma {:induction false} HeadOfOneMore(first: char, rest: seq<string>, c: char)
    requires rest != []
    ensures var more := rest[..|rest| - 1] + [rest[|rest| - 1] + [c]];
            var parts := [[first] + rest[0]] + rest[1..];
            [[first] + more[0]] + more[1..] == parts[..|parts| - 1] + [parts[|parts| - 1] + [c]]
  {
    if |rest| == 1 {
      assert [first] + (rest[0] + [c]) == ([first] + rest[0]) + [c];
    }
  }

  lemma {:induction false} StripOfLeftSpace(c: char, s: string)
    requires IsSpace(c)
    ensures Strip([c] + s) == Strip(s)
  {
    assert ([c] + s)[1..] == s;
  }

  lemma {:induction false} StripOfRightSpace(s: string, c: char)
    requires IsSpace(c)
    ensures Strip(s + [c]) == Strip(s)
  {
    if s != "" && IsSpace(s[0]) {
      StripOfRightSpace(s[1..], c);
      assert (s + [c])[1..] == s[1..] + [c];
    } else if s == "" {
      assert s + [c] == [c] && [c][1..] == "";
    } else {
      assert (s + [c])[..|s|] == s;
    }
  }

  /** Stripping before splitting makes no difference to the stripped pieces. */
  lemma {:induction false} KeptOfStripLeft(s: string, sep: char)
    requires !IsSpace(sep)
    ensures Kept(Split(StripLeft(s), sep)) == Kept(Split(s, sep))
  {
    if s != "" && IsSpace(s[0]) {
      KeptOfStripLeft(s[1..], sep);
      StripOfLeftSpace(s[0], Split(s[1..], sep)[0]);
    }
  }

  lemma {:induction false} KeptOfStripRight(s: string, sep: char)
    requires !IsSpace(sep)
    ensures Kept(Split(StripRight(s), sep)) == Kept(Split(s, sep))
  {
    hide Split;
    if s != "" && IsSpace(s[|s| - 1]) {
      var (init, c) := (s[..|s| - 1], s[|s| - 1]);
      KeptOfStripRight(init, sep);
      assert s == init + [c];
      SplitOfOneMore(init, c, sep);
      var parts := Split(init, sep);
      var (front, last) := (parts[..|parts| - 1], parts[|parts| - 1]);
      KeptOfParts(front, [last]);
      KeptOfParts(front, [last + [c]]);
      StripOfRightSpace(last, c);
      assert parts == front + [last];
      assert Kept([last]) == Kept([last + [c]]) by { OneKept(last); OneKept(last + [c]); }
    }
  }

  lemma OneKept(piece: string)
    ensures Kept([piece]) == if Strip(piece) == "" then [] else [Strip(piece)]
  {
    assert [piece][1..] == [];
  }

  lemma {:induction false} KeptOfLetters(pieces: seq<string>)
    requires AreLetters(pieces)
    ensures var r := Letters(Kept(pieces));
            |r| == |pieces| && forall k :: 0 <= k < |pieces| ==> r[k] == UpperText(Strip(pieces[k]))
  {
    hide Strip, UpperText;
    if pieces != [] {
      KeptOfLetters(pieces[1..]);
      UpperOfLetter(Strip(pieces[0]));
      var (first, rest) := (Strip(pieces[0]), Kept(pieces[1..]));
      assert Kept(pieces) == [first] + rest && ([first] + rest)[1..] == rest;
    }
  }

  lemma {:induction false} JoinHas(pieces: seq<string>, sep: char, c: char)
    requires |pieces| >= 1
    ensures c in Join(pieces, [sep]) <==> (|pieces| > 1 && c == sep) || exists k :: 0 <= k < |pieces| && c in pieces[k]
  {
    if |pieces| > 1 {
      JoinHas(pieces[1..], sep, c);
      var joined := pieces[0] + [sep] + Join(pieces[1..], [sep]);
      assert c in joined <==> c in pieces[0] || c == sep || c in Join(pieces[1..], [sep]);
      if k :| 0 <= k < |pieces| && c in pieces[k] {
        assert k == 0 || c in pieces[1..][k - 1];
      }
    }
  }

  /** Any two or more letters, in either case and with spaces around them, joined by commas or by
      slashes, are parsed as these letters in upper case and in order. */
  lemma {:induction false} ParseOfLetters(pieces: seq<string>, sep: char)
    requires |pieces| >= 2 && AreLetters(pieces) && (sep == ',' || sep == '/')
    ensures var letters := ParseChooseTwo(Join(pieces, [sep]));
            |letters| == |pieces| && forall k :: 0 <= k < |pieces| ==> letters[k] == UpperText(Strip(pieces[k]))
  {
    hide Split, Join, Strip, UpperText, Kept, Letters;
    var raw := Join(pieces, [sep]);
    forall k | 0 <= k < |pieces| ensures ',' !in pieces[k] && '/' !in pieces[k] {
      UpperOfLetter(Strip(pieces[k]));
      StripKeeps(pieces[k], ',');
      StripKeeps(pieces[k], '/');
    }
    JoinHas(pieces, sep, ',');
    JoinHas(pieces, sep, '/');
    StripKeeps(raw, ',');
    StripKeeps(raw, '/');
    if IsLetter(Strip(raw)) {
      UpperOfLetter(Strip(raw));
    }
    StripIsInside(raw, sep);
    SplitOfJoin(pieces, sep);
    KeptOfLetters(pieces);
  }

  lemma {:induction false} StripIsInside(raw: string, sep: char)
    requires !IsSpace(sep)
    ensures Kept(Split(Strip(raw), sep)) == Kept(Split(raw, sep))
  {
    KeptOfStripLeft(raw, sep);
    KeptOfStripRight(StripLeft(raw), sep);
  }

  /** Whatever else stands between commas is passed over; slashes only count where there is no comma. */
  lemma {:induction false} PiecesAreParsed(pieces: seq<string>, sep: char)
    requires |pieces| >= 2 && (sep == ',' || sep == '/')
    requires forall k :: 0 <= k < |pieces| ==> ',' !in pieces[k] && sep !in pieces[k]
    ensures ParseChooseTwo(Join(pieces, [sep])) == Letters(Kept(pieces))
  {
    hide Split, Join, Strip, UpperText, Kept, Letters;
    var raw := Join(pieces, [sep]);
    JoinHas(pieces, sep, ',');
    JoinHas(pieces, sep, sep);
    StripKeeps(raw, ',');
    StripKeeps(raw, sep);
    if IsLetter(Strip(raw)) {
      UpperOfLetter(Strip(raw));
    }
    StripIsInside(raw, sep);
    SplitOfJoin(pieces, sep);
  }

  lemma {:induction false} LettersByPiece(a: seq<string>, piece: string, b: seq<string>)
    ensures var text := UpperText(Strip(piece));
            Letters(Kept(a + [piece] + b))
            == Letters(Kept(a)) + (if |text| == 1 && 'A' <= text[0] <= 'Z' then [text] else []) + Letters(Kept(b))
    ensures Letters(Kept([])) == []
  {
    hide UpperText, Strip;
    KeptOfParts(a + [piece], b);
    KeptOfParts(a, [piece]);
    LettersOfParts(Kept(a) + Kept([piece]), Kept(b));
    LettersOfParts(Kept(a), Kept([piece]));
    OneKept(piece);
    OneLetter(Strip(piece));
    assert Letters(Kept(a)) + [] == Letters(Kept(a));
    if Strip(piece) == "" {
      assert UpperText("") == "" by { NothingIsUpper(); }
    }
  }

  lemma NothingIsUpper()
    ensures UpperText("") == ""
  {
  }

  lemma OneLetter(text: string)
    ensures Letters([text]) == if IsLetter(UpperText(text)) then [UpperText(text)] else []
  {
    assert [text][1..] == [];
  }

  lemma {:induction false} LettersOfParts(a: seq<string>, b: seq<string>)
    ensures Letters(a + b) == Letters(a) + Letters(b)
  {
    hide UpperText;
    if a == [] {
      assert a + b == b;
    } else {
      LettersOfParts(a[1..], b);
      assert (a + b)[1..] == a[1..] + b;
    }
  }

  // ---------------------------------------------------------------------------------------
  // What is saved

  /** The slugs of the question types. */
  lemma SlugsAre()
    ensures Slug("Form completion") == "form_completion" && Slug("Note completion") == "note_completion"
    ensures Slug("Sentence completion") == "sentence_completion" && Slug("Matching") == "matching"
    ensures Slug("MCQ — single answer") == Slug("MCQ — choose TWO") == "mcq"
    ensures Slug("Table completion") == "table_completion"
    ensures Slug("Map/plan/diagram labelling") == "map_labeling"
    ensures Slug("Flow-chart completion") == "flowchart_completion"
    ensures Slug("Summary completion") == "summary_completion_box"
  {
  }

  /** The passage of a question's first row: the part's instructions on the very first, if it has
      any, and otherwise the question's own. */
  predicate IsFirstPassage(passage: Option<string>, q: Question, qnum: nat, instructions: Option<string>) {
    if qnum == 1 && instructions.Some? && Strip(instructions.value) != "" then passage == Some(Strip(instructions.value))
    else if q.instructions.Some? && Strip(q.instructions.value) != "" then passage == Some(Strip(q.instructions.value))
    else passage == None
  }

  predicate IsSkill(skill: string, q: Question, slug: string) {
    if q.skill.Some? && q.skill.value != "" then skill == q.skill.value else skill == slug
  }

  /** A question that is no choose-two question is saved as one row with its own columns. */
  lemma {:induction false} SavedAsOne(q: Question, qnum: nat, instructions: Option<string>)
    requires !q.chooseTwo && q.kind != "MCQ — choose TWO"
    ensures var rows := PlacedAll(Expand(q, qnum, instructions), q, qnum);
            && |rows| == 1 && rows[0].number == qnum && rows[0].kind == Slug(q.kind)
            && rows[0].prompt == q.prompt && rows[0].options == q.options
            && rows[0].answer == JoinAnswers(q.correct, q.alts)
            && IsFirstPassage(rows[0].passage, q, qnum, instructions) && IsSkill(rows[0].skill, q, rows[0].kind)
  {
    hide Slug, Strip, JoinAnswers;
  }

  /** Nor are more rows written for a choose-two question of another kind, or with fewer than two letters. */
  lemma {:induction false} OtherwiseSavedAsOne(q: Question, qnum: nat, instructions: Option<string>)
    requires Slug(q.kind) != "mcq" || |ParseChooseTwo(q.correct)| < 2
    ensures var rows := PlacedAll(Expand(q, qnum, instructions), q, qnum);
            && |rows| == 1 && rows[0].number == qnum && rows[0].kind == Slug(q.kind)
            && rows[0].prompt == q.prompt && rows[0].options == q.options
            && rows[0].answer == JoinAnswers(q.correct, q.alts)
            && IsSkill(rows[0].skill, q, rows[0].kind)
            && (qnum == 1 || (q.instructions.Some? && q.instructions.value != "")
                ==> IsFirstPassage(rows[0].passage, q, qnum, instructions))
            && (qnum > 1 && (q.instructions.None? || q.instructions.value == "") ==> rows[0].passage == None)
  {
    hide Slug, Strip, JoinAnswers, ParseChooseTwo;
    StripTrims("");
  }

  /** A choose-two question with two or more letters is saved as one row for each, in order. */
  lemma {:induction false} SavedAsLetters(q: Question, qnum: nat, instructions: Option<string>, pieces: seq<string>, sep: char)
    requires q.chooseTwo || q.kind == "MCQ — choose TWO"
    requires Slug(q.kind) == "mcq" && q.correct == Join(pieces, [sep])
    requires |pieces| >= 2 && AreLetters(pieces) && (sep == ',' || sep == '/')
    ensures var rows := PlacedAll(Expand(q, qnum, instructions), q, qnum);
            && |rows| == |pieces|
            && IsFirstPassage(rows[0].passage, q, qnum, instructions)
            && forall k :: 0 <= k < |pieces| ==>
                 && rows[k].number == qnum + k && rows[k].kind == "mcq"
                 && rows[k].prompt == q.prompt && rows[k].options == q.options
                 && rows[k].answer == UpperText(Strip(pieces[k]))
                 && IsSkill(rows[k].skill, q, "mcq")
  {
    hide Slug, Strip, Join, UpperText, ParseChooseTwo;
    StripTrims("");
    ParseOfLetters(pieces, sep);
  }

  lemma {:induction false} RowsOfParts(a: seq<Question>, b: seq<Question>, qnum: nat, instructions: Option<string>)
    ensures var before := RowsOf(a, qnum, instructions);
            RowsOf(a + b, qnum, instructions) == before + RowsOf(b, qnum + |before|, instructions)
  {
    hide Expand, PlacedAll, RowsOf;
    if a == [] {
      NothingToSave(instructions);
      assert a + b == b;
    } else {
      var q := a[0];
      var placed := PlacedAll(Expand(q, qnum, instructions), q, qnum);
      assert a == [q] + a[1..] && a + b == [q] + (a[1..] + b);
      SaveUnfolds(q, a[1..], qnum, instructions);
      SaveUnfolds(q, a[1..] + b, qnum, instructions);
      RowsOfParts(a[1..], b, qnum + |placed|, instructions);
    }
  }

  /** Anywhere in a saved part, such a question stands in as many consecutive rows as it has
      letters, the k-th with the k-th letter, numbered after the rows before it. */
  lemma {:induction false} LettersInPart(a: seq<Question>, q: Question, b: seq<Question>, instructions: Option<string>,
                                         pieces: seq<string>, sep: char)
    requires q.chooseTwo || q.kind == "MCQ — choose TWO"
    requires Slug(q.kind) == "mcq" && q.correct == Join(pieces, [sep])
    requires |pieces| >= 2 && AreLetters(pieces) && (sep == ',' || sep == '/')
    ensures var (rows, n) := (RowsOf(a + [q] + b, 1, instructions), |RowsOf(a, 1, instructions)|);
            && n + |pieces| <= |rows|
            && forall k :: 0 <= k < |pieces| ==>
                 && rows[n + k].number == n + k + 1 && rows[n + k].kind == "mcq"
                 && rows[n + k].prompt == q.prompt && rows[n + k].options == q.options
                 && rows[n + k].answer == UpperText(Strip(pieces[k]))
  {
    hide Slug, Strip, Join, UpperText, Expand, PlacedAll, RowsOf;
    var n := |RowsOf(a, 1, instructions)|;
    assert a + [q] + b == a + ([q] + b);
    RowsOfParts(a, [q] + b, 1, instructions);
    SaveUnfolds(q, b, n + 1, instructions);
    SavedAsLetters(q, n + 1, instructions, pieces, sep);
  }

  /** And any other question in one row. */
  lemma {:induction false} OneInPart(a: seq<Question>, q: Question, b: seq<Question>, instructions: Option<string>)
    requires !q.chooseTwo && q.kind != "MCQ — choose TWO"
    ensures var (rows, n) := (RowsOf(a + [q] + b, 1, instructions), |RowsOf(a, 1, instructions)|);
            && n < |rows| && rows[n].number == n + 1 && rows[n].kind == Slug(q.kind)
            && rows[n].prompt == q.prompt && rows[n].options == q.options && rows[n].answer == JoinAnswers(q.correct, q.alts)
            && |rows| == n + 1 + |RowsOf(b, n + 2, instructions)|
  {
    hide Slug, JoinAnswers, Expand, PlacedAll, RowsOf;
    var n := |RowsOf(a, 1, instructions)|;
    assert a + [q] + b == a + ([q] + b);
    RowsOfParts(a, [q] + b, 1, instructions);
    SaveUnfolds(q, b, n + 1, instructions);
    SavedAsOne(q, n + 1, instructions);
  }

  /** What is stored of an answer: the trimmed primary, and every alternative that is not blank,
      trimmed and in order. */
  lemma {:induction false} JoinedAnswers(primary: string, alts: seq<string>)
    requires forall k :: 0 <= k < |alts| ==> Strip(alts[k]) != ""
    ensures JoinAnswers(primary, alts) == Join([Strip(primary)] + seq(|alts|, k requires 0 <= k < |alts| => Strip(alts[k])), "/")
  {
    KeptOfFull(alts);
  }

  lemma {:induction false} KeptOfFull(parts: seq<string>)
    requires forall k :: 0 <= k < |parts| ==> Strip(parts[k]) != ""
    ensures Kept(parts) == seq(|parts|, k requires 0 <= k < |parts| => Strip(parts[k]))
  {
    hide Strip;
    if parts != [] {
      KeptOfFull(parts[1..]);
    }
  }

  lemma {:induction false} BlankAlternativesGo(primary: string, a: seq<string>, blank: string, b: seq<string>)
    requires Strip(blank) == ""
    ensures JoinAnswers(primary, a + [blank] + b) == JoinAnswers(primary, a + b)
  {
    KeptOfParts(a + [blank], b);
    KeptOfParts(a, [blank]);
    KeptOfParts(a, b);
    OneKept(blank);
    assert Kept(a) + [] == Kept(a);
    assert Kept(a + [blank] + b) == Kept(a + b);
  }

  // ---------------------------------------------------------------------------------------
  // What is loaded

  /** A row that is not merged gives its own columns. */
  lemma {:induction false} LoadedAsOne(row: Row)
    ensures var q := LoadedSingle(row);
            && q.prompt == row.prompt && q.instructions == row.passage && q.options == row.options
            && q.skill == Some(row.skill)
            && (q.correct, q.alts) == SplitAnswers(row.answer)
            && (q.chooseTwo && row.kind == "mcq" ==> q.kind == "MCQ — choose TWO")
            && (!q.chooseTwo && row.kind == "mcq" ==> q.kind == "MCQ — single answer")
  {
    McqIsCurrent();
  }

  /** A pair gives the columns of its first row and both letters. */
  lemma {:induction false} LoadedAsPair(a: Row, b: Row)
    requires IsPair(a, b)
    ensures var q := LoadedPair(a, b);
            && q.prompt == a.prompt && q.instructions == a.passage && q.options == a.options && q.skill == Some(a.skill)
            && q.kind == "MCQ — choose TWO" && q.chooseTwo && q.alts == []
            && q.correct == UpperText(Strip(a.answer)) + "," + UpperText(Strip(b.answer))
  {
    McqIsCurrent();
    var (x, y) := (UpperText(Strip(a.answer)), UpperText(Strip(b.answer)));
    assert [x, y][1..] == [y];
    assert Join([x, y], ",") == x + "," + Join([y], ",");
  }

  /** One letter, in either case, once spaces are taken off. */
  predicate IsBareLetter(answer: string) {
    var text := Strip(answer); |text| == 1 && ('A' <= text[0] <= 'Z' || 'a' <= text[0] <= 'z')
  }

  /** Two rows are merged exactly when the first has not been merged yet and both are multiple
      choices with the same prompt, the same options, absent ones being none, and a letter each. */
  lemma {:induction false} WhatIsMerged(rows: seq<Row>)
    requires rows != []
    ensures var merged := |rows| >= 2 && rows[0].kind == "mcq" && rows[1].kind == "mcq" && rows[0].prompt == rows[1].prompt
              && (if rows[0].options.Some? then rows[0].options.value else [])
                 == (if rows[1].options.Some? then rows[1].options.value else [])
              && IsBareLetter(rows[0].answer) && IsBareLetter(rows[1].answer);
            QuestionsOf(rows) == if merged then [LoadedPair(rows[0], rows[1])] + QuestionsOf(rows[2..])
                                 else [LoadedSingle(rows[0])] + QuestionsOf(rows[1..])
    ensures QuestionsOf([]) == []
  {
    hide Strip, LoadedPair, LoadedSingle;
  }

  /** A single row is shown as a choose-two question by its kind, or by a comma in its first answer. */
  lemma {:induction false} WhatLooksChooseTwo(row: Row)
    ensures var (q, kind) := (LoadedSingle(row), LowerText(row.kind));
            && (row.kind == "mcq" || kind == "multiple_choice" || kind == "multiple-choice" ==>
                  (q.chooseTwo <==> ',' in SplitAnswers(row.answer).0)
                  && q.kind == if ',' in SplitAnswers(row.answer).0 then "MCQ — choose TWO" else "MCQ — single answer")
            && (row.kind == "MCQ — choose TWO" ==> q.chooseTwo)
            && (row.kind != "mcq" && kind != "multiple_choice" && kind != "multiple-choice" && Slug(row.kind) != "mcq" ==>
                  !q.chooseTwo)
  {
    McqIsCurrent();
    SlugsAre();
    hide Slug, SplitAnswers, Split, Kept, LowerText;
    var primary := SplitAnswers(row.answer).0;
    if ',' !in primary {
      NoCommaOnePiece(primary);
    }
  }

  lemma {:induction false} NoCommaOnePiece(primary: string)
    requires ',' !in primary
    ensures |Kept(Split(primary, ','))| < 2
  {
    SplitOfPiece(primary, ',');
    OneKept(primary);
  }

  /** The names under which slugs are shown. */
  lemma NamesAre()
    ensures Display("form_completion", false) == "Form completion" && Display("note_completion", false) == "Note completion"
    ensures Display("sentence_completion", false) == "Sentence completion" && Display("matching", false) == "Matching"
    ensures Display("mcq", false) == "MCQ — single answer" && Display("mcq", true) == "MCQ — choose TWO"
    ensures Display("table_completion", false) == "Table completion"
    ensures Display("map_labeling", false) == "Map/plan/diagram labelling"
    ensures Display("flowchart_completion", false) == "Flow-chart completion"
    ensures Display("summary_completion_box", false) == "Summary completion"
  {
  }
}
