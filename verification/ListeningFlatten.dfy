/** How scripts/normalize_listening_mock.py turns the question groups of one section into rows:
    _flatten_groups, _renumber_per_part and the count check of normalize. Missing texts and lists
    are empty ones, and every question number is an integer. */
module ListeningFlatten {
  import opened Wrappers
  import AnswerFormat
  import Text
  import SqlValues

  datatype RawChoice = RawChoice(mark: string, letter: string, text: string)
  type Choice = AnswerFormat.Choice
  datatype Section = Section(heading: string, range: seq<int>)
  datatype Question = Question(number: int, prompt: string, before: string, after: string,
                               options: seq<RawChoice>, answer: Option<string>, answers: seq<string>,
                               accepted: seq<string>)
  datatype Group = Group(id: string, kind: string, instruction: string, options: seq<RawChoice>, stem: string,
                         numbers: seq<int>, answers: seq<string>, formTitle: string, notesTitle: string,
                         sections: seq<Section>, questions: seq<Question>)
  datatype Row = Row(number: int, kind: string, prompt: string, passage: Option<string>,
                     options: Option<seq<Choice>>, answer: string, skill: string)

  datatype Fault = NoGroups | Unsupported(kind: string, id: string) | Unknown(kind: string)
                 | LengthMismatch(id: string) | NoNumbers | NoQuestions(id: string)
                 | WrongTotal(expected: int, flattened: int)
  type Outcome = Result<seq<Row>, Fault>

  const SUPPORTED: set<string> :=
    {"multiple_choice", "multiple_choice_single", "multiple_choice_multiple", "matching",
     "sentence_completion", "note_completion", "form_completion"}
  const DEFERRED: set<string> := {"map_labeling"}

  // ---------------------------------------------------------------------------------------
  // One row

  function NonEmpty(s: string): Option<string> { if s == "" then None else Some(s) }

  function StoredKind(kind: string): string {
    if kind == "multiple_choice" || kind == "multiple_choice_single" then "mcq" else kind
  }

  function SkillTag(kind: string): string {
    if kind == "matching" then "matching"
    else if kind in {"sentence_completion", "note_completion", "form_completion"} then "completion"
    else "detail"
  }

  /** The option, if it has a label. */
  function ChoiceOf(raw: RawChoice): seq<Choice> {
    var mark := Text.Strip(if raw.mark != "" then raw.mark else raw.letter);
    if mark != "" then [AnswerFormat.Choice(mark, Text.Strip(raw.text))] else []
  }

  function Choices(raw: seq<RawChoice>): seq<Choice> {
    if raw == [] then [] else ChoiceOf(raw[0]) + Choices(raw[1..])
  }

  function NormalOptions(raw: seq<RawChoice>): Option<seq<Choice>> {
    if Choices(raw) == [] then None else Some(Choices(raw))
  }

  /** The line of a section, if it has a heading and a range. */
  function LineOf(section: Section): seq<string> {
    var (heading, range) := (Text.Strip(section.heading), section.range);
    if heading == "" || range == [] then []
    else
      var (from, to) := (range[0], if |range| == 1 then range[0] else range[1]);
      if from == to then ["@@section@@" + SqlValues.Decimal(from) + "|" + heading]
      else ["@@section@@" + SqlValues.Decimal(from) + "-" + SqlValues.Decimal(to) + "|" + heading]
  }

  function SectionLines(sections: seq<Section>): seq<string> {
    if sections == [] then [] else LineOf(sections[0]) + SectionLines(sections[1..])
  }

  function Kind(group: Group): string { Text.Strip(group.kind) }
  function Instruction(group: Group): Option<string> { NonEmpty(Text.Strip(group.instruction)) }
  function AsList(text: Option<string>): seq<string> { if text.None? then [] else [text.value] }

  /** The text that goes with the first question of a group. */
  function PassageText(group: Group): Option<string> {
    var instruction := Instruction(group);
    if Kind(group) == "form_completion" then
      var title := Text.Strip(group.formTitle);
      var parts := AsList(instruction) + if title == "" then [] else ["@@form_title@@" + title];
      if parts == [] then instruction else Some(Text.Join(parts, "\n\n"))
    else if Kind(group) == "note_completion" then
      var title := Text.Strip(group.notesTitle);
      var parts := AsList(instruction) + (if title == "" then [] else ["@@notes_title@@" + title])
                   + SectionLines(group.sections);
      if parts == [] then instruction else Some(Text.Join(parts, "\n"))
    else instruction
  }

  function Answer(q: Question): string {
    if q.accepted != [] then Text.Strip(Text.Join(q.accepted, "/"))
    else if q.answer.Some? then Text.Strip(q.answer.value)
    else if q.answers != [] then Text.Strip(Text.Join(q.answers, "/"))
    else ""
  }

  function Prompt(group: Group, q: Question): string {
    if Kind(group) in {"sentence_completion", "note_completion"}
    then Text.Strip(Text.Strip(q.before) + " ___ " + Text.Strip(q.after))
    else Text.Strip(q.prompt)
  }

  function QuestionRow(group: Group, q: Question, first: int): Row {
    var kind := StoredKind(Kind(group));
    Row(q.number, kind, Prompt(group, q), if q.number == first then PassageText(group) else None,
        if NormalOptions(q.options).Some? then NormalOptions(q.options) else NormalOptions(group.options),
        Answer(q), SkillTag(kind))
  }

  function LetterRow(group: Group, number: int, letter: string, first: int): Row {
    var stem := Text.Strip(group.stem);
    Row(number, "mcq",
        if stem != "" then stem
        else if Instruction(group).Some? then Instruction(group).value
        else "Question " + SqlValues.Decimal(number),
        if number == first then Instruction(group) else None,
        NormalOptions(group.options), Text.Strip(letter), SkillTag("mcq"))
  }

  // ---------------------------------------------------------------------------------------
  // One group

  function Min(numbers: seq<int>): (m: int)
    requires numbers != []
    ensures m in numbers && forall n :: n in numbers ==> m <= n
  {
    if |numbers| == 1 then numbers[0]
    else
      var m := Min(numbers[1..]);
      assert numbers == [numbers[0]] + numbers[1..];
      if numbers[0] <= m then numbers[0] else m
  }

  predicate IsMultiple(group: Group) { Kind(group) == "multiple_choice_multiple" }

  /** Left out without an error. */
  predicate IsSkipped(group: Group, allow: bool) { allow && Kind(group) in DEFERRED }

  /** What is wrong with a group, if anything. */
  function GroupFault(group: Group, allow: bool): Option<Fault> {
    var kind := Kind(group);
    if kind in DEFERRED then if allow then None else Some(Unsupported(kind, group.id))
    else if kind !in SUPPORTED then Some(Unknown(kind))
    else if IsMultiple(group) then
      if |group.numbers| != |group.answers| then Some(LengthMismatch(group.id))
      else if group.numbers == [] then Some(NoNumbers)
      else None
    else if group.questions == [] then Some(NoQuestions(group.id))
    else None
  }

  /** The question numbers of a group, in the order of its questions. */
  function Numbers(group: Group): seq<int> {
    if IsMultiple(group) then group.numbers
    else seq(|group.questions|, i requires 0 <= i < |group.questions| => group.questions[i].number)
  }

  /** The number whose row gets the group's text: the smallest letter of a multiple choice,
      and the question listed first otherwise. */
  function First(group: Group): int
    requires Numbers(group) != []
  {
    if IsMultiple(group) then Min(group.numbers) else group.questions[0].number
  }

  function GroupRows(group: Group, allow: bool): (rows: seq<Row>)
    requires GroupFault(group, allow).None?
    ensures IsSkipped(group, allow) ==> rows == []
    ensures !IsSkipped(group, allow) ==> |rows| == |Numbers(group)| > 0
  {
    if IsSkipped(group, allow) then []
    else if IsMultiple(group) then
      seq(|group.numbers|, i requires 0 <= i < |group.numbers| =>
        LetterRow(group, group.numbers[i], group.answers[i], First(group)))
    else
      seq(|group.questions|, i requires 0 <= i < |group.questions| =>
        QuestionRow(group, group.questions[i], First(group)))
  }

  // ---------------------------------------------------------------------------------------
  // All groups

  predicate AllSound(groups: seq<Group>, allow: bool) {
    forall i :: 0 <= i < |groups| ==> GroupFault(groups[i], allow).None?
  }

  /** Each group's rows after those of the groups before it. */
  function AllRows(groups: seq<Group>, allow: bool): seq<Row>
    requires AllSound(groups, allow)
  {
    if groups == [] then []
    else AllRows(groups[..|groups| - 1], allow) + GroupRows(groups[|groups| - 1], allow)
  }

  function Count(groups: seq<Group>, allow: bool): nat {
    if groups == [] then 0
    else Count(groups[..|groups| - 1], allow)
         + if IsSkipped(groups[|groups| - 1], allow) then 0 else |Numbers(groups[|groups| - 1])|
  }

  // ---------------------------------------------------------------------------------------
  // The sort

  predicate IsSorted(rows: seq<Row>) {
    forall i, j :: 0 <= i < j < |rows| ==> rows[i].number <= rows[j].number
  }

  /** Before the larger rows and after those with the same number. */
  function Insert(rows: seq<Row>, row: Row): (r: seq<Row>)
    ensures multiset(r) == multiset(rows) + multiset{row}
  {
    if rows == [] || rows[|rows| - 1].number <= row.number then rows + [row]
    else
      var init := rows[..|rows| - 1];
      assert rows == init + [rows[|rows| - 1]];
      Insert(init, row) + [rows[|rows| - 1]]
  }

  /** A stable sort by number. */
  function Sorted(rows: seq<Row>): (r: seq<Row>)
    ensures multiset(r) == multiset(rows)
  {
    if rows == [] then []
    else
      assert rows == rows[..|rows| - 1] + [rows[|rows| - 1]];
      Insert(Sorted(rows[..|rows| - 1]), rows[|rows| - 1])
  }

  /** The rows with one number, in order. */
  function OnlyNumber(rows: seq<Row>, n: int): seq<Row> {
    if rows == [] then []
    else OnlyNumber(rows[..|rows| - 1], n) + if rows[|rows| - 1].number == n then [rows[|rows| - 1]] else []
  }

  lemma {:induction false} InsertIsSorted(rows: seq<Row>, row: Row)
    requires IsSorted(rows)
    ensures IsSorted(Insert(rows, row))
  {
    if rows != [] && rows[|rows| - 1].number > row.number {
      var (init, last) := (rows[..|rows| - 1], rows[|rows| - 1]);
      InsertIsSorted(init, row);
      var inner := Insert(init, row);
      forall i | 0 <= i < |inner| ensures inner[i].number <= last.number {
        assert inner[i] in multiset(inner);
        assert inner[i] in init || inner[i] == row;
      }
    }
  }

  lemma OnlyOfOneMore(rows: seq<Row>, row: Row, n: int)
    ensures OnlyNumber(rows + [row], n) == OnlyNumber(rows, n) + if row.number == n then [row] else []
  {
  }

  lemma {:induction false} InsertIsStable(rows: seq<Row>, row: Row, n: int)
    requires IsSorted(rows)
    ensures OnlyNumber(Insert(rows, row), n) == OnlyNumber(rows + [row], n)
  {
    hide OnlyNumber;
    if rows != [] && rows[|rows| - 1].number > row.number {
      var (init, last) := (rows[..|rows| - 1], rows[|rows| - 1]);
      InsertIsStable(init, row, n);
      OnlyOfOneMore(init, row, n);
      OnlyOfOneMore(init, last, n);
      OnlyOfOneMore(rows, row, n);
      OnlyOfOneMore(Insert(init, row), last, n);
      assert rows == init + [last];
    }
  }

  lemma {:induction false} SortedIsSorted(rows: seq<Row>)
    ensures IsSorted(Sorted(rows))
  {
    hide Insert;
    if rows != [] {
      SortedIsSorted(rows[..|rows| - 1]);
      InsertIsSorted(Sorted(rows[..|rows| - 1]), rows[|rows| - 1]);
    }
  }

  /** Rows with the same number keep their order. */
  lemma {:induction false} SortedIsStable(rows: seq<Row>, n: int)
    ensures OnlyNumber(Sorted(rows), n) == OnlyNumber(rows, n)
  {
    hide Insert, OnlyNumber, IsSorted;
    if rows != [] {
      var (init, last) := (rows[..|rows| - 1], rows[|rows| - 1]);
      SortedIsStable(init, n);
      SortedIsSorted(init);
      InsertIsStable(Sorted(init), last, n);
      OnlyOfOneMore(Sorted(init), last, n);
      OnlyOfOneMore(init, last, n);
      assert rows == init + [last];
    }
  }

  lemma {:induction false} SortOfSorted(rows: seq<Row>)
    requires IsSorted(rows)
    ensures Sorted(rows) == rows
  {
    if rows != [] {
      SortOfSorted(rows[..|rows| - 1]);
    }
  }

  // ---------------------------------------------------------------------------------------
  // Flattening

  function Flattened(groups: seq<Group>, allow: bool): seq<Row>
    requires AllSound(groups, allow)
  {
    Sorted(AllRows(groups, allow))
  }

  /** _flatten_groups: the first unsound group stops it. */
  method FlattenGroups(groups: seq<Group>, allow: bool) returns (r: Outcome)
    ensures r.Ok? <==> groups != [] && AllSound(groups, allow)
    ensures r.Ok? ==> r.value == Flattened(groups, allow)
    ensures groups == [] ==> r == Err(NoGroups)
    ensures r.Err? && groups != [] ==>
      exists i :: 0 <= i < |groups| && AllSound(groups[..i], allow) && GroupFault(groups[i], allow) == Some(r.error)
  {
    hide GroupRows, GroupFault, IsSkipped, Sorted, AllRows, AllSound;
    NoRows(allow);
    if groups == [] {
      return Err(NoGroups);
    }
    var rows: seq<Row> := [];
    for i := 0 to |groups|
      invariant AllSound(groups[..i], allow)
      invariant rows == AllRows(groups[..i], allow)
    {
      var fault := GroupFault(groups[i], allow);
      SoundSoFar(groups, allow, i);
      if fault.Some? {
        return Err(fault.value);
      }
      var more := RowsOfGroup(groups[i], allow);
      rows := rows + more;
    }
    assert groups[..|groups|] == groups;
    r := Ok(Sorted(rows));
  }

  lemma NoRows(allow: bool)
    ensures AllSound([], allow) && AllRows([], allow) == []
  {
  }

  lemma SoundSoFar(groups: seq<Group>, allow: bool, i: nat)
    requires i < |groups| && AllSound(groups[..i], allow)
    ensures AllSound(groups[..i + 1], allow) <==> GroupFault(groups[i], allow).None?
    ensures GroupFault(groups[i], allow).Some? ==> !AllSound(groups, allow)
    ensures GroupFault(groups[i], allow).None? ==>
      AllRows(groups[..i + 1], allow) == AllRows(groups[..i], allow) + GroupRows(groups[i], allow)
  {
    hide GroupFault, GroupRows;
    assert groups[..i + 1][..i] == groups[..i];
  }

  /** The body of its loop for a sound group. */
  method RowsOfGroup(group: Group, allow: bool) returns (rows: seq<Row>)
    requires GroupFault(group, allow).None?
    ensures rows == GroupRows(group, allow)
  {
    hide Min, LetterRow, QuestionRow;
    rows := [];
    if Kind(group) in DEFERRED {
      return;
    }
    if IsMultiple(group) {
      var first := Min(group.numbers);
      for i := 0 to |group.numbers|
        invariant |rows| == i
        invariant forall k :: 0 <= k < i ==> rows[k] == LetterRow(group, group.numbers[k], group.answers[k], first)
      {
        rows := rows + [LetterRow(group, group.numbers[i], group.answers[i], first)];
      }
    } else {
      var first: Option<int> := None;
      for i := 0 to |group.questions|
        invariant first == if i == 0 then None else Some(group.questions[0].number)
        invariant |rows| == i
        invariant forall k :: 0 <= k < i ==>
          rows[k] == QuestionRow(group, group.questions[k], group.questions[0].number)
      {
        if first.None? {
          first := Some(group.questions[i].number);
        }
        rows := rows + [QuestionRow(group, group.questions[i], first.value)];
      }
    }
  }

  lemma {:induction false} AllRowsCount(groups: seq<Group>, allow: bool)
    requires AllSound(groups, allow)
    ensures |AllRows(groups, allow)| == Count(groups, allow)
  {
    hide GroupRows;
    if groups != [] {
      AllRowsCount(groups[..|groups| - 1], allow);
    }
  }

  /** Sorted by number with ties in the order of the groups, and as many rows as the groups that
      are not skipped have questions. */
  lemma {:induction false} FlattenedIsSorted(groups: seq<Group>, allow: bool)
    requires AllSound(groups, allow)
    ensures IsSorted(Flattened(groups, allow))
    ensures |Flattened(groups, allow)| == Count(groups, allow)
    ensures forall n :: OnlyNumber(Flattened(groups, allow), n) == OnlyNumber(AllRows(groups, allow), n)
  {
    hide IsSorted, AllRows, Sorted, Count, OnlyNumber;
    var rows := AllRows(groups, allow);
    SortedIsSorted(rows);
    forall n ensures OnlyNumber(Sorted(rows), n) == OnlyNumber(rows, n) {
      SortedIsStable(rows, n);
    }
    AllRowsCount(groups, allow);
    assert |multiset(Sorted(rows))| == |multiset(rows)|;
  }

  // ---------------------------------------------------------------------------------------
  // The group texts

  /** The texts that rows carry, counted. */
  function Passages(rows: seq<Row>): multiset<string> {
    if rows == [] then multiset{}
    else Passages(rows[..|rows| - 1])
         + PassageOf(rows[|rows| - 1])
  }

  /** What a group wants shown. */
  function Wanted(group: Group): Option<string> {
    if IsMultiple(group) then Instruction(group) else PassageText(group)
  }

  /** Each wanted text of the groups that are not skipped, once. */
  function WantedTexts(groups: seq<Group>, allow: bool): multiset<string> {
    if groups == [] then multiset{}
    else
      var group := groups[|groups| - 1];
      WantedTexts(groups[..|groups| - 1], allow)
      + if !IsSkipped(group, allow) && Wanted(group).Some? then multiset{Wanted(group).value} else multiset{}
  }

  function Times(numbers: seq<int>, n: int): (k: nat)
    ensures k > 0 <==> n in numbers
  {
    if numbers == [] then 0 else
    assert numbers == numbers[..|numbers| - 1] + [numbers[|numbers| - 1]];
    Times(numbers[..|numbers| - 1], n) + if numbers[|numbers| - 1] == n then 1 else 0
  }

  /** No other question of the group has the number that gets the text, if there is a text. */
  predicate TextIsSingle(group: Group, allow: bool) {
    GroupFault(group, allow).None? && !IsSkipped(group, allow) && Wanted(group).Some?
    ==> Times(Numbers(group), First(group)) == 1
  }

  function PassageOf(row: Row): multiset<string> {
    if row.passage.Some? then multiset{row.passage.value} else multiset{}
  }

  lemma PassagesOfOneMore(rows: seq<Row>, row: Row)
    ensures Passages(rows + [row]) == Passages(rows) + PassageOf(row)
  {
  }

  lemma {:induction false} PassagesOfParts(a: seq<Row>, b: seq<Row>)
    ensures Passages(a + b) == Passages(a) + Passages(b)
  {
    hide Passages, PassageOf;
    if b == [] {
      NoPassages();
      assert a + b == a;
    } else {
      var (init, last) := (b[..|b| - 1], b[|b| - 1]);
      PassagesOfParts(a, init);
      PassagesOfOneMore(init, last);
      PassagesOfOneMore(a + init, last);
      assert b == init + [last];
      assert a + b == (a + init) + [last];
    }
  }

  /** Sorting moves no text from the output. */
  lemma {:induction false} PassagesOfInsert(rows: seq<Row>, row: Row)
    ensures Passages(Insert(rows, row)) == Passages(rows) + PassageOf(row)
  {
    hide Passages, PassageOf;
    PassagesOfOneMore(rows, row);
    if rows != [] && rows[|rows| - 1].number > row.number {
      var (init, last) := (rows[..|rows| - 1], rows[|rows| - 1]);
      PassagesOfInsert(init, row);
      PassagesOfOneMore(Insert(init, row), last);
      PassagesOfOneMore(init, last);
      assert rows == init + [last];
    }
  }

  lemma {:induction false} PassagesOfSorted(rows: seq<Row>)
    ensures Passages(Sorted(rows)) == Passages(rows)
  {
    hide PassageOf, Insert;
    if rows != [] {
      var (init, last) := (rows[..|rows| - 1], rows[|rows| - 1]);
      PassagesOfSorted(init);
      PassagesOfInsert(Sorted(init), last);
      PassagesOfOneMore(init, last);
      assert rows == init + [last];
    }
  }

  /** Rows whose text follows their number carry it once for each use of the first number. */
  lemma {:induction false} PassagesByNumber(rows: seq<Row>, numbers: seq<int>, first: int, text: Option<string>, t: string)
    requires |rows| == |numbers|
    requires forall i :: 0 <= i < |rows| ==> rows[i].passage == if numbers[i] == first then text else None
    ensures Passages(rows)[t] == if text == Some(t) then Times(numbers, first) else 0
  {
    if rows != [] {
      PassagesByNumber(rows[..|rows| - 1], numbers[..|rows| - 1], first, text, t);
    }
  }

  lemma GroupPassages(group: Group, allow: bool, t: string)
    requires GroupFault(group, allow).None? && !IsSkipped(group, allow)
    ensures Passages(GroupRows(group, allow))[t]
         == if Wanted(group) == Some(t) then Times(Numbers(group), First(group)) else 0
    ensures Numbers(group) != [] && Times(Numbers(group), First(group)) > 0
  {
    hide Instruction, PassageText, Choices, Answer, Passages, Times;
    PassagesByNumber(GroupRows(group, allow), Numbers(group), First(group), Wanted(group), t);
    if !IsMultiple(group) {
      assert Numbers(group)[0] == First(group);
    }
  }

  lemma WantedOfOneMore(groups: seq<Group>, allow: bool)
    requires groups != []
    ensures WantedTexts(groups, allow)
         == WantedTexts(groups[..|groups| - 1], allow) + WantedTexts([groups[|groups| - 1]], allow)
  {
  }

  predicate TextsAreSingle(groups: seq<Group>, allow: bool) {
    forall i :: 0 <= i < |groups| ==> TextIsSingle(groups[i], allow)
  }

  lemma SingleOfOneMore(groups: seq<Group>, allow: bool)
    requires groups != []
    ensures TextsAreSingle(groups, allow)
        <==> TextsAreSingle(groups[..|groups| - 1], allow) && TextIsSingle(groups[|groups| - 1], allow)
  {
    hide TextIsSingle;
  }

  /** Every group with a text puts it on at least one row. */
  lemma {:induction false} PassagesOfGroups(groups: seq<Group>, allow: bool)
    requires AllSound(groups, allow)
    ensures WantedTexts(groups, allow) <= Passages(AllRows(groups, allow))
    ensures Passages(AllRows(groups, allow)) == WantedTexts(groups, allow) <==> TextsAreSingle(groups, allow)
  {
    hide GroupRows, Passages, TextIsSingle, GroupFault, WantedTexts, TextsAreSingle;
    if groups == [] {
      NoPassages();
      NoTexts(allow);
    } else {
      var (init, group) := (groups[..|groups| - 1], groups[|groups| - 1]);
      PassagesOfGroups(init, allow);
      PassagesOfParts(AllRows(init, allow), GroupRows(group, allow));
      GroupAdds(group, allow);
      WantedOfOneMore(groups, allow);
      SingleOfOneMore(groups, allow);
      SumsOfParts(Passages(AllRows(init, allow)), Passages(GroupRows(group, allow)),
                  WantedTexts(init, allow), WantedTexts([group], allow));
    }
  }

  lemma NoTexts(allow: bool)
    ensures WantedTexts([], allow) == multiset{} && TextsAreSingle([], allow)
  {
  }

  lemma SumsOfParts<T>(p: multiset<T>, q: multiset<T>, v: multiset<T>, w: multiset<T>)
    requires v <= p && w <= q
    ensures v + w <= p + q
    ensures p + q == v + w <==> p == v && q == w
  {
    if p + q == v + w {
      forall t ensures p[t] == v[t] && q[t] == w[t] {
        assert (p + q)[t] == (v + w)[t];
        assert v[t] <= p[t] && w[t] <= q[t];
      }
    }
  }

  /** One group alone. */
  lemma GroupAdds(group: Group, allow: bool)
    requires GroupFault(group, allow).None?
    ensures WantedTexts([group], allow) <= Passages(GroupRows(group, allow))
    ensures Passages(GroupRows(group, allow)) == WantedTexts([group], allow)
        <==> TextIsSingle(group, allow)
  {
    hide Wanted, Times, GroupFault, Passages;
    var (got, wanted) := (Passages(GroupRows(group, allow)), WantedTexts([group], allow));
    if IsSkipped(group, allow) {
      NoPassages();
    } else {
      forall t
        ensures got[t] == if Wanted(group) == Some(t) then Times(Numbers(group), First(group)) else 0
        ensures Numbers(group) != [] && Times(Numbers(group), First(group)) > 0
      {
        GroupPassages(group, allow, t);
      }
      var text := Wanted(group);
      if text.Some? {
        NoTexts(allow);
        assert [group][..0] == [];
        assert wanted == multiset{} + multiset{text.value};
        assert got[text.value] == Times(Numbers(group), First(group));
      } else {
        assert got == multiset{};
      }
    }
  }

  lemma NoPassages()
    ensures Passages([]) == multiset{}
  {
  }

  /** In the flattened section each group's text stands on exactly one row, exactly when every
      group with a text has its first number on one question only; distinct numbers suffice. */
  lemma {:induction false} TextsComeOnce(groups: seq<Group>, allow: bool)
    requires AllSound(groups, allow)
    ensures WantedTexts(groups, allow) <= Passages(Flattened(groups, allow))
    ensures Passages(Flattened(groups, allow)) == WantedTexts(groups, allow)
        <==> TextsAreSingle(groups, allow)
  {
    hide Passages, WantedTexts, TextsAreSingle, Sorted;
    PassagesOfGroups(groups, allow);
    PassagesOfSorted(AllRows(groups, allow));
  }

  lemma {:induction false} DistinctIsSingle(numbers: seq<int>, n: int)
    requires forall i, j :: 0 <= i < j < |numbers| ==> numbers[i] != numbers[j]
    ensures Times(numbers, n) <= 1
  {
    if numbers != [] {
      DistinctIsSingle(numbers[..|numbers| - 1], n);
    }
  }

  // ---------------------------------------------------------------------------------------
  // Numbering within the part

  function RowNumbers(rows: seq<Row>): (r: seq<int>)
    ensures |r| == |rows| && forall i :: 0 <= i < |rows| ==> r[i] == rows[i].number
  {
    seq(|rows|, i requires 0 <= i < |rows| => rows[i].number)
  }

  function Shifted(rows: seq<Row>, offset: int): (r: seq<Row>)
    ensures |r| == |rows| && forall i :: 0 <= i < |rows| ==> r[i] == rows[i].(number := rows[i].number - offset)
  {
    seq(|rows|, i requires 0 <= i < |rows| => rows[i].(number := rows[i].number - offset))
  }

  function Renumbered(rows: seq<Row>): seq<Row> {
    if rows == [] || Min(RowNumbers(rows)) == 1 then rows
    else Sorted(Shifted(rows, Min(RowNumbers(rows)) - 1))
  }

  /** _renumber_per_part. */
  method RenumberPerPart(rows: seq<Row>) returns (out: seq<Row>)
    ensures out == Renumbered(rows)
  {
    hide Min, Sorted;
    if rows == [] {
      return rows;
    }
    var least := Min(RowNumbers(rows));
    if least == 1 {
      return rows;
    }
    out := [];
    for i := 0 to |rows|
      invariant |out| == i
      invariant forall k :: 0 <= k < i ==> out[k] == rows[k].(number := rows[k].number - (least - 1))
    {
      out := out + [rows[i].(number := rows[i].number - (least - 1))];
    }
    assert out == Shifted(rows, least - 1);
    out := Sorted(out);
  }

  /** Whatever the order of the rows, the numbers start at one afterwards, every row keeps its
      distance from the others and everything else it holds, and doing it twice is doing it once. */
  lemma {:induction false} RenumberedIsShift(rows: seq<Row>)
    requires rows != []
    ensures multiset(Renumbered(rows)) == multiset(Shifted(rows, Min(RowNumbers(rows)) - 1))
    ensures Renumbered(rows) != [] && Min(RowNumbers(Renumbered(rows))) == 1
    ensures Renumbered(Renumbered(rows)) == Renumbered(rows)
  {
    hide Min, Sorted;
    var least := Min(RowNumbers(rows));
    var shifted := Shifted(rows, least - 1);
    if least == 1 {
      assert shifted == rows;
    }
    assert |multiset(Renumbered(rows))| == |multiset(shifted)|;
    ShiftedStartsAtOne(rows);
    SameRowsSameMin(shifted, Renumbered(rows));
  }

  lemma ShiftedStartsAtOne(rows: seq<Row>)
    requires rows != []
    ensures Min(RowNumbers(Shifted(rows, Min(RowNumbers(rows)) - 1))) == 1
  {
    hide Min;
    var (numbers, shifted) := (RowNumbers(rows), RowNumbers(Shifted(rows, Min(RowNumbers(rows)) - 1)));
    MinOfShifted(numbers, shifted, Min(numbers) - 1);
  }

  lemma MinOfShifted(numbers: seq<int>, shifted: seq<int>, offset: int)
    requires |numbers| == |shifted| > 0
    requires forall i :: 0 <= i < |numbers| ==> shifted[i] == numbers[i] - offset
    ensures Min(shifted) == Min(numbers) - offset
  {
  }

  lemma SameRowsSameMin(a: seq<Row>, b: seq<Row>)
    requires a != [] && b != [] && multiset(a) == multiset(b)
    ensures Min(RowNumbers(a)) == Min(RowNumbers(b))
  {
    hide Min;
    MinIsThere(a, b);
    MinIsThere(b, a);
  }

  lemma MinIsThere(a: seq<Row>, b: seq<Row>)
    requires a != [] && b != [] && multiset(a) == multiset(b)
    ensures Min(RowNumbers(b)) <= Min(RowNumbers(a))
  {
    hide Min;
    var i :| 0 <= i < |a| && RowNumbers(a)[i] == Min(RowNumbers(a));
    assert a[i] in multiset(b);
    var k :| 0 <= k < |b| && b[k] == a[i];
    assert RowNumbers(b)[k] in RowNumbers(b);
  }

  /** On the sorted rows of a section it moves no row. */
  lemma {:induction false} RenumberedKeepsOrder(rows: seq<Row>)
    requires rows != [] && IsSorted(rows)
    ensures Renumbered(rows) == Shifted(rows, rows[0].number - 1)
    ensures IsSorted(Renumbered(rows))
  {
    var least := Min(RowNumbers(rows));
    assert RowNumbers(rows)[0] in RowNumbers(rows);
    assert least == rows[0].number;
    SortOfSorted(Shifted(rows, least - 1));
    if least == 1 {
      assert Shifted(rows, 0) == rows;
    }
  }

  /** The numbers are then exactly 1 to n when no two rows had one number and there was no gap. */
  lemma RenumberedIsOneToN(rows: seq<Row>)
    requires rows != [] && IsSorted(rows)
    ensures |Renumbered(rows)| == |rows|
    ensures (forall i :: 0 <= i < |rows| ==> Renumbered(rows)[i].number == i + 1)
        <==> (forall i, j :: 0 <= i < j < |rows| ==> rows[i].number != rows[j].number)
             && rows[|rows| - 1].number - rows[0].number == |rows| - 1
  {
    hide Renumbered;
    RenumberedKeepsOrder(rows);
    var out := Renumbered(rows);
    assert |out| == |rows|;
    if (forall i, j :: 0 <= i < j < |rows| ==> rows[i].number != rows[j].number)
       && rows[|rows| - 1].number - rows[0].number == |rows| - 1 {
      forall i | 0 <= i < |rows| ensures out[i].number == i + 1 {
        Spread(rows, 0, i);
        Spread(rows, i, |rows| - 1);
      }
    }
    if forall i :: 0 <= i < |rows| ==> out[i].number == i + 1 {
      forall i | 0 <= i < |rows| ensures rows[i].number == rows[0].number + i {
        assert out[i].number == i + 1;
      }
    }
  }

  lemma {:induction false} Spread(rows: seq<Row>, i: nat, j: nat)
    requires i <= j < |rows| && IsSorted(rows)
    requires forall k, l :: 0 <= k < l < |rows| ==> rows[k].number != rows[l].number
    ensures rows[j].number - rows[i].number >= j - i
  {
    if i < j {
      Spread(rows, i, j - 1);
    }
  }

  // ---------------------------------------------------------------------------------------
  // normalize

  /** The rows of a section, or why there are none. A missing or zero total expects whatever came. */
  method Normalize(groups: seq<Group>, total: int, allow: bool, perPart: bool) returns (r: Outcome)
    ensures r.Ok? <==> groups != [] && AllSound(groups, allow) && (total == 0 || total == Count(groups, allow))
    ensures r.Ok? ==> |r.value| == Count(groups, allow) && IsSorted(r.value)
                      && r.value == if perPart then Renumbered(Flattened(groups, allow)) else Flattened(groups, allow)
    ensures r.Err? && groups != [] && AllSound(groups, allow) ==> r.error == WrongTotal(total, Count(groups, allow))
  {
    hide Flattened, Renumbered, Count, AllSound;
    r := FlattenGroups(groups, allow);
    if r.Err? {
      return;
    }
    var rows := r.value;
    FlattenedIsSorted(groups, allow);
    if perPart {
      NothingToNumber();
      if rows != [] {
        RenumberedKeepsOrder(rows);
      }
      rows := RenumberPerPart(rows);
    }
    var expected := if total != 0 then total else |rows|;
    if |rows| != expected {
      return Err(WrongTotal(expected, |rows|));
    }
    r := Ok(rows);
  }

  lemma NothingToNumber()
    ensures Renumbered([]) == []
  {
  }
}
