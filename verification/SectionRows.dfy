/** What scripts/normalize_listening_mock.py writes for each question of a section, column by column,
    and which groups it takes. */
module SectionRows {
  import opened Wrappers
  import opened ListeningFlatten
  import opened Text
  import AnswerFormat
  import SqlValues

  /** The one kind of group that is left out when that is allowed, and the seven that are taken:
      a multiple choice of several letters needs as many numbers as answers, and any other group a
      question. */
  lemma {:induction false} GroupIsSound(group: Group, allow: bool)
    ensures var kind := Strip(group.kind);
            var known := kind in {"multiple_choice", "multiple_choice_single", "multiple_choice_multiple", "matching",
                                  "sentence_completion", "note_completion", "form_completion"};
            && (IsSkipped(group, allow) <==> allow && kind == "map_labeling")
            && (GroupFault(group, allow) == Some(Unsupported(kind, group.id)) <==> kind == "map_labeling" && !allow)
            && (GroupFault(group, allow) == Some(Unknown(kind)) <==> kind != "map_labeling" && !known)
            && (GroupFault(group, allow) == Some(LengthMismatch(group.id)) <==>
                  kind == "multiple_choice_multiple" && |group.numbers| != |group.answers|)
            && (GroupFault(group, allow) == Some(NoNumbers) <==>
                  kind == "multiple_choice_multiple" && group.numbers == [] && group.answers == [])
            && (GroupFault(group, allow) == Some(NoQuestions(group.id)) <==>
                  known && kind != "multiple_choice_multiple" && group.questions == [])
            && (GroupFault(group, allow).None? <==>
                  if kind == "map_labeling" then allow
                  else if kind == "multiple_choice_multiple" then |group.numbers| == |group.answers| > 0
                  else known && group.questions != [])
  {
    hide Strip;
  }

  // ---------------------------------------------------------------------------------------
  // Options

  /** Option i as it is stored. */
  predicate IsChoice(raw: RawChoice, choice: Choice) {
    && choice.mark == Strip(if raw.mark != "" then raw.mark else raw.letter)
    && choice.text == Strip(raw.text)
  }

  predicate HasLabel(raw: RawChoice) { Strip(if raw.mark != "" then raw.mark else raw.letter) != "" }

  lemma {:induction false} ChoicesOfLabelled(raw: seq<RawChoice>)
    requires forall i :: 0 <= i < |raw| ==> HasLabel(raw[i])
    ensures |Choices(raw)| == |raw| && forall i :: 0 <= i < |raw| ==> IsChoice(raw[i], Choices(raw)[i])
  {
    hide Strip;
    if raw != [] {
      ChoicesOfLabelled(raw[1..]);
    }
  }

  lemma {:induction false} ChoicesOfParts(a: seq<RawChoice>, b: seq<RawChoice>)
    ensures Choices(a + b) == Choices(a) + Choices(b)
  {
    hide ChoiceOf;
    if a == [] {
      assert a + b == b;
    } else {
      ChoicesOfParts(a[1..], b);
      assert (a + b)[1..] == a[1..] + b;
    }
  }

  /** Labelled options are stored one for one, and those without a label are left out; a question
      without labelled options has none. */
  lemma {:induction false} OptionsAreLabelled(a: seq<RawChoice>, raw: RawChoice, b: seq<RawChoice>)
    ensures (forall i :: 0 <= i < |a| ==> HasLabel(a[i])) && a != [] ==>
      && NormalOptions(a).Some? && |NormalOptions(a).value| == |a|
      && forall i :: 0 <= i < |a| ==> IsChoice(a[i], NormalOptions(a).value[i])
    ensures !HasLabel(raw) ==> NormalOptions(a + [raw] + b) == NormalOptions(a + b)
    ensures HasLabel(raw) ==> NormalOptions(a + [raw] + b).Some?
    ensures NormalOptions([]) == None
  {
    hide Strip;
    if forall i :: 0 <= i < |a| ==> HasLabel(a[i]) {
      ChoicesOfLabelled(a);
    }
    ChoicesOfParts(a + [raw], b);
    ChoicesOfParts(a, [raw]);
    ChoicesOfParts(a, b);
    assert [raw][1..] == [];
    assert Choices(a) + [] == Choices(a);
  }

  // ---------------------------------------------------------------------------------------
  // Group texts

  /** The instructions alone, but for two kinds: a form has its title after a blank line, and notes
      their title and then their sections, each on a line of its own. Blank texts are left out. */
  lemma {:induction false} TextIsComposed(group: Group)
    ensures var (kind, text) := (Strip(group.kind), Strip(group.instruction));
            var (form, notes) := (Strip(group.formTitle), Strip(group.notesTitle));
            && (kind == "form_completion" ==>
                  PassageText(group) ==
                  if text != "" && form != "" then Some(text + "\n\n" + "@@form_title@@" + form)
                  else if form != "" then Some("@@form_title@@" + form)
                  else if text != "" then Some(text) else None)
            && (kind == "note_completion" ==>
                  var lines := (if text == "" then [] else [text]) + (if notes == "" then [] else ["@@notes_title@@" + notes])
                               + SectionLines(group.sections);
                  PassageText(group) == if lines == [] then None else Some(Join(lines, "\n")))
            && (kind != "form_completion" && kind != "note_completion" ==>
                  PassageText(group) == if text == "" then None else Some(text))
  {
    hide Strip, SectionLines;
    var (text, form) := (Strip(group.instruction), Strip(group.formTitle));
    if Strip(group.kind) == "form_completion" {
      var title := "@@form_title@@" + form;
      assert [text] + [] == [text] && [] + [title] == [title] && [text] + [title] == [text, title];
      assert [text, title][1..] == [title];
      assert Join([text, title], "\n\n") == text + "\n\n" + Join([title], "\n\n");
      assert text + "\n\n" + title == text + "\n\n" + "@@form_title@@" + form;
    }
  }

  /** A section shows its heading and its first and last number, or its only one. */
  lemma {:induction false} SectionIsALine(a: seq<Section>, section: Section, b: seq<Section>)
    ensures var (heading, range) := (Strip(section.heading), section.range);
            SectionLines(a + [section] + b) == SectionLines(a) +
              (if heading == "" || range == [] then []
               else if |range| == 1 || range[0] == range[1] then ["@@section@@" + SqlValues.Decimal(range[0]) + "|" + heading]
               else ["@@section@@" + SqlValues.Decimal(range[0]) + "-" + SqlValues.Decimal(range[1]) + "|" + heading])
              + SectionLines(b)
    ensures SectionLines([]) == []
  {
    hide Strip;
    LinesOfParts(a + [section], b);
    LinesOfParts(a, [section]);
    assert [section][1..] == [];
  }

  lemma {:induction false} LinesOfParts(a: seq<Section>, b: seq<Section>)
    ensures SectionLines(a + b) == SectionLines(a) + SectionLines(b)
  {
    hide LineOf;
    if a == [] {
      assert a + b == b;
    } else {
      LinesOfParts(a[1..], b);
      assert (a + b)[1..] == a[1..] + b;
    }
  }

  // ---------------------------------------------------------------------------------------
  // Rows

  /** A multiple choice of several letters gives one row for each number, with its own letter; the
      smallest number carries the instructions. */
  lemma {:induction false} LetterIsPlaced(group: Group, allow: bool, i: nat)
    requires Strip(group.kind) == "multiple_choice_multiple" && GroupFault(group, allow).None? && i < |group.numbers|
    ensures var rows := GroupRows(group, allow);
            && |rows| == |group.numbers|
            && var (row, text, stem) := (rows[i], Strip(group.instruction), Strip(group.stem));
               && i < |group.answers| && row.number == group.numbers[i] && row.answer == Strip(group.answers[i])
               && row.kind == "mcq" && row.skill == "detail" && row.options == NormalOptions(group.options)
               && row.prompt == (if stem != "" then stem else if text != "" then text
                                 else "Question " + SqlValues.Decimal(group.numbers[i]))
               && row.passage == if text != "" && forall n :: n in group.numbers ==> group.numbers[i] <= n
                                 then Some(text) else None
  {
    hide Strip, NormalOptions;
    assert group.numbers[i] in group.numbers;
  }

  /** Any other group gives one row for each question, with the question's own number, prompt,
      answer and options; the options of the group stand in for missing ones, and the number listed
      first carries the group's text. */
  lemma {:induction false} QuestionIsPlaced(group: Group, allow: bool, i: nat)
    requires Strip(group.kind) != "multiple_choice_multiple" && Strip(group.kind) != "map_labeling"
    requires GroupFault(group, allow).None? && i < |group.questions|
    ensures var (rows, kind) := (GroupRows(group, allow), Strip(group.kind));
            && |rows| == |group.questions|
            && var (row, q) := (rows[i], group.questions[i]);
               && row.number == q.number
               && row.kind == (if kind == "multiple_choice" || kind == "multiple_choice_single" then "mcq" else kind)
               && row.prompt == (if kind == "sentence_completion" || kind == "note_completion"
                                 then Strip(Strip(q.before) + " ___ " + Strip(q.after)) else Strip(q.prompt))
               && row.answer == (if q.accepted != [] then Strip(Join(q.accepted, "/"))
                                 else if q.answer.Some? then Strip(q.answer.value)
                                 else if q.answers != [] then Strip(Join(q.answers, "/")) else "")
               && row.options == (if NormalOptions(q.options) != None then NormalOptions(q.options)
                                  else NormalOptions(group.options))
               && row.passage == (if q.number == group.questions[0].number then PassageText(group) else None)
               && row.skill == if kind == "matching" then "matching"
                               else if kind == "multiple_choice" || kind == "multiple_choice_single" then "detail"
                               else "completion"
  {
    hide Strip, NormalOptions, PassageText, Join;
    assert Strip(group.kind) in SUPPORTED;
  }

  /** Every group adds its rows to the section, and one that is skipped adds nothing. */
  lemma {:induction false} GroupAddsItsRows(groups: seq<Group>, group: Group, allow: bool)
    requires AllSound(groups, allow) && GroupFault(group, allow).None?
    ensures AllSound(groups + [group], allow)
    ensures multiset(Flattened(groups + [group], allow)) == multiset(Flattened(groups, allow)) + multiset(GroupRows(group, allow))
    ensures allow && Strip(group.kind) == "map_labeling" ==> GroupRows(group, allow) == []
    ensures Flattened([], allow) == []
    ensures Count(groups + [group], allow) == Count(groups, allow) +
      if Strip(group.kind) == "map_labeling" then 0
      else if Strip(group.kind) == "multiple_choice_multiple" then |group.numbers| else |group.questions|
    ensures Count([], allow) == 0
  {
    hide Strip, GroupFault, Sorted;
    assert (groups + [group])[..|groups|] == groups;
    GroupIsSound(group, allow);
  }

  /** The renumbering takes the same from every number, so that the smallest becomes one. */
  lemma {:induction false} RowsAreShifted(rows: seq<Row>, i: nat, shifted: seq<Row>)
    requires i < |rows| && forall k :: 0 <= k < |rows| ==> rows[i].number <= rows[k].number
    requires |shifted| == |rows|
    requires forall k :: 0 <= k < |rows| ==> shifted[k] == rows[k].(number := rows[k].number - rows[i].number + 1)
    ensures multiset(Renumbered(rows)) == multiset(shifted)
  {
    hide Min, Sorted, Renumbered;
    var numbers := RowNumbers(rows);
    assert numbers[i] in numbers;
    assert Min(numbers) == rows[i].number;
    RenumberedIsShift(rows);
    assert Shifted(rows, Min(numbers) - 1) == shifted;
  }
}
