/** app/admin/answer_format.py: slash joins alternatives, and a choose-two question is stored as
    one row per letter. */
module AnswerFormat {
  import opened Wrappers
  import opened Text

  datatype Choice = Choice(mark: string, text: string)

  /** A stored question row. */
  datatype Row = Row(
    number: nat,
    kind: string,
    prompt: string,
    passage: Option<string>,
    options: Option<seq<Choice>>,
    answer: string,
    skill: string)

  /** The pieces that survive stripping. */
  function Kept(parts: seq<string>): seq<string> {
    if parts == [] then []
    else if Strip(parts[0]) == "" then Kept(parts[1..])
    else [Strip(parts[0])] + Kept(parts[1..])
  }

  function JoinAnswers(primary: string, alts: seq<string>): string {
    Join([Strip(primary)] + Kept(alts), "/")
  }

  function SplitAnswers(raw: string): (string, seq<string>) {
    var parts := Kept(Split(raw, '/'));
    if parts == [] then ("", []) else (parts[0], parts[1..])
  }

  function Letters(parts: seq<string>): seq<string> {
    if parts == [] then []
    else if IsLetter(UpperText(parts[0])) then [UpperText(parts[0])] + Letters(parts[1..])
    else Letters(parts[1..])
  }

  function ParseChooseTwo(raw: string): seq<string> {
    var text := Strip(raw);
    if text == "" then []
    else if IsLetter(text) then [UpperText(text)]
    else if ',' in text then Letters(Kept(Split(text, ',')))
    else if '/' in text then Letters(Kept(Split(text, '/')))
    else []
  }

  function LetterRows(base: Row, letters: seq<string>): (rows: seq<Row>)
    ensures |rows| == |letters|
    ensures forall i :: 0 <= i < |letters| ==> rows[i] == base.(answer := letters[i], kind := "mcq")
  {
    seq(|letters|, i requires 0 <= i < |letters| => base.(answer := letters[i], kind := "mcq"))
  }

  function ExpandChooseTwo(base: Row, correct: string, alts: seq<string>): (rows: seq<Row>)
    ensures rows != []
  {
    var letters := ParseChooseTwo(correct);
    if |letters| < 2 then [base.(answer := JoinAnswers(correct, alts))] else LetterRows(base, letters)
  }

  function OptionsOf(row: Row): seq<Choice> {
    if row.options.None? then [] else row.options.value
  }

  predicate IsPair(a: Row, b: Row) {
    && a.kind == "mcq" && b.kind == "mcq"
    && a.prompt == b.prompt
    && IsLetter(Strip(a.answer)) && IsLetter(Strip(b.answer))
    && OptionsOf(a) == OptionsOf(b)
  }

  // ---------------------------------------------------------------------------------------

  /** Every piece is trimmed and not blank. */
  predicate AreClean(parts: seq<string>) {
    forall i :: 0 <= i < |parts| ==> parts[i] != "" && IsTrimmed(parts[i])
  }

  /** The stored answer is empty, or its slash segments are trimmed and not blank. */
  predicate IsClean(answer: string) {
    answer == "" || AreClean(Split(answer, '/'))
  }

  lemma {:induction false} KeptIsClean(parts: seq<string>)
    ensures AreClean(Kept(parts))
    ensures forall c :: !IsSpace(c) && Free(parts, c) ==> Free(Kept(parts), c)
    ensures |Kept(parts)| <= |parts|
  {
    if parts != [] {
      KeptIsClean(parts[1..]);
      StripTrims(parts[0]);
      forall c | !IsSpace(c) && Free(parts, c) ensures Free(Kept(parts), c) {
        StripKeeps(parts[0], c);
        assert Free(parts[1..], c);
      }
    }
  }

  lemma {:induction false} KeptOfClean(parts: seq<string>)
    requires AreClean(parts)
    ensures Kept(parts) == parts
  {
    if parts != [] {
      StripTrims(parts[0]);
      KeptOfClean(parts[1..]);
    }
  }

  /** Splitting a stored answer and joining it again gives it back exactly when it is clean. */
  lemma JoinOfSplitAnswers(answer: string)
    ensures var (primary, alts) := SplitAnswers(answer);
            JoinAnswers(primary, alts) == answer <==> IsClean(answer)
  {
    var parts := Kept(Split(answer, '/'));
    SplitIsFree(answer, '/');
    KeptIsClean(Split(answer, '/'));
    JoinOfSplit(answer, '/');
    if parts != [] {
      KeptOfClean(parts[1..]);
      StripTrims(parts[0]);
      assert [parts[0]] + parts[1..] == parts;
      SplitOfJoin(parts, '/');
      if IsClean(answer) && answer != "" {
        KeptOfClean(Split(answer, '/'));
      }
    } else {
      StripTrims("");
      if answer != "" && IsClean(answer) {
        KeptOfClean(Split(answer, '/'));
      }
    }
  }

  /** A trimmed primary answer and trimmed alternatives without slashes come back. */
  lemma SplitOfJoinAnswers(primary: string, alts: seq<string>)
    requires IsTrimmed(primary) && AreClean(alts) && Free([primary] + alts, '/')
    requires primary != "" || alts == []
    ensures SplitAnswers(JoinAnswers(primary, alts)) == (primary, alts)
  {
    StripTrims(primary);
    KeptOfClean(alts);
    var parts := [primary] + alts;
    SplitOfJoin(parts, '/');
    if primary == "" {
      StripTrims("");
    } else {
      KeptOfClean(parts);
    }
  }

  /** A joined answer that strips to one letter is that letter. */
  lemma JoinedLetter(primary: string, alts: seq<string>)
    requires IsLetter(Strip(JoinAnswers(primary, alts)))
    ensures IsLetter(JoinAnswers(primary, alts))
    ensures Kept(alts) == [] && JoinAnswers(primary, alts) == Strip(primary)
  {
    var joined := JoinAnswers(primary, alts);
    StripTrims(primary);
    if Kept(alts) != [] {
      StripKeeps(joined, '/');
    } else {
      StripTrims(joined);
    }
  }

  lemma {:induction false} LettersAreLetters(parts: seq<string>)
    ensures forall i :: 0 <= i < |Letters(parts)| ==>
              IsLetter(Letters(parts)[i]) && UpperText(Letters(parts)[i]) == Letters(parts)[i]
  {
    if parts != [] {
      LettersAreLetters(parts[1..]);
      if IsLetter(UpperText(parts[0])) {
        UpperOfLetter(UpperText(parts[0]));
        assert UpperText(UpperText(parts[0])) == UpperText(parts[0]);
      }
    }
  }

  lemma ParsedAreLetters(raw: string)
    ensures forall i :: 0 <= i < |ParseChooseTwo(raw)| ==>
              IsLetter(ParseChooseTwo(raw)[i]) && UpperText(ParseChooseTwo(raw)[i]) == ParseChooseTwo(raw)[i]
  {
    var text := Strip(raw);
    LettersAreLetters(Kept(Split(text, ',')));
    LettersAreLetters(Kept(Split(text, '/')));
    if IsLetter(text) {
      UpperOfLetter(text);
    }
  }

  /** Two upper-case letters joined by a comma parse back. */
  lemma ParseOfPair(x: string, y: string)
    requires IsLetter(x) && IsLetter(y) && UpperText(x) == x && UpperText(y) == y
    ensures ParseChooseTwo(Join([x, y], ",")) == [x, y]
  {
    var text := Join([x, y], ",");
    assert text == x + [','] + y;
    StripTrims(text);
    SplitOfJoin([x, y], ',');
    KeptOfClean([x, y]);
    assert Letters([x, y]) == [x] + Letters([y]);
    assert Letters([y]) == [y] + Letters([]);
  }

  /** Without a comma and a slash there are never two letters. */
  lemma ParseOfPlain(raw: string)
    requires ',' !in raw && '/' !in raw
    ensures |ParseChooseTwo(raw)| < 2
  {
    StripKeeps(raw, ',');
    StripKeeps(raw, '/');
  }
}
