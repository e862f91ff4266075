/** What keeps a practice set from being published: bank_publish_blockers of
    app/admin/question_bank.py:583-708, with the writing rules of app/admin/writing_taxonomy.py. */
module PublishGate {
  import opened Wrappers
  import Text

  datatype Skill = Listening | Reading | Writing | Speaking
  datatype ExamModule = Academic | General | BothModules
  datatype Task = NoTask | Task1Academic | Task1General | Task2 | OtherTask
  /** The options column: an object, whose video_url may be missing or null, or anything else. */
  datatype Options = NoObject | Object(video: Option<string>)
  /** Null texts are empty ones. */
  datatype Question = Question(prompt: string, passage: string, audio: string, answer: string, options: Options,
                               task: Task)
  datatype Section = Section(part: int, audio: string, passage: string, questions: seq<Question>)

  datatype Blocker = NoQuestions | NoAudio(part: int) | NoAnswer(part: int, number: int) | NoPassage
                   | NoReadyQuestion | NoPrompt | NoModule | BadTask | WrongModule(task: Task)

  predicate IsBlank(s: string) { Text.Strip(s) == "" }

  // ---------------------------------------------------------------------------------------
  // What a complete set is

  predicate IsAnswered(q: Question) { !IsBlank(q.answer) }

  predicate HasQuestions(sections: seq<Section>) {
    exists i :: 0 <= i < |sections| && sections[i].questions != []
  }

  predicate AllAnswered(sections: seq<Section>) {
    forall i, k :: 0 <= i < |sections| && 0 <= k < |sections[i].questions| ==> IsAnswered(sections[i].questions[k])
  }

  predicate HasAudio(s: Section) {
    !IsBlank(s.audio) || exists k :: 0 <= k < |s.questions| && !IsBlank(s.questions[k].audio)
  }

  predicate HasPassage(sections: seq<Section>) {
    exists i :: 0 <= i < |sections| &&
      (!IsBlank(sections[i].passage)
       || exists k :: 0 <= k < |sections[i].questions| && !IsBlank(sections[i].questions[k].passage))
  }

  predicate HasPrompt(sections: seq<Section>) {
    exists i :: 0 <= i < |sections| &&
      (!IsBlank(sections[i].passage)
       || exists k :: 0 <= k < |sections[i].questions| && !IsBlank(sections[i].questions[k].prompt))
  }

  predicate Fits(task: Task, m: ExamModule) {
    match task
    case Task1Academic => m != General
    case Task1General => m != Academic
    case Task2 => true
    case _ => false
  }

  predicate QuestionsFit(questions: seq<Question>, m: ExamModule) {
    forall k :: 0 <= k < |questions| ==> questions[k].task == NoTask || Fits(questions[k].task, m)
  }

  predicate TasksFit(sections: seq<Section>, m: ExamModule) {
    forall i :: 0 <= i < |sections| ==> QuestionsFit(sections[i].questions, m)
  }

  predicate HasVideo(q: Question) { q.options.Object? && q.options.video.Some? && !IsBlank(q.options.video.value) }

  /** A prompt or a video. */
  predicate IsReady(q: Question) { !IsBlank(q.prompt) || HasVideo(q) }

  /** What the code takes for one: str() makes a missing or null video_url the text "None". */
  predicate CountsAsReady(q: Question) {
    !IsBlank(q.prompt)
    || !IsBlank(if q.options.NoObject? then "" else if q.options.video.None? then "None" else q.options.video.value)
  }

  predicate HasReady(sections: seq<Section>) {
    exists i, k :: 0 <= i < |sections| && 0 <= k < |sections[i].questions| && IsReady(sections[i].questions[k])
  }

  predicate HasVideolessObject(sections: seq<Section>) {
    exists i, k :: 0 <= i < |sections| && 0 <= k < |sections[i].questions|
                   && sections[i].questions[k].options == Object(None)
  }

  predicate Complete(skill: Skill, m: Option<ExamModule>, sections: seq<Section>) {
    match skill
    case Listening =>
      && HasQuestions(sections) && AllAnswered(sections)
      && forall i :: 0 <= i < |sections| && sections[i].questions != [] ==> HasAudio(sections[i])
    case Reading => HasQuestions(sections) && HasPassage(sections) && AllAnswered(sections)
    case Writing => HasPrompt(sections) && m.Some? && TasksFit(sections, m.value)
    case Speaking => HasReady(sections)
  }

  // ---------------------------------------------------------------------------------------
  // The blockers

  /** One for each unanswered question, counting from one. */
  function MissingAnswers(part: int, questions: seq<Question>): seq<Blocker> {
    if questions == [] then []
    else
      MissingAnswers(part, questions[..|questions| - 1])
      + if IsAnswered(questions[|questions| - 1]) then [] else [NoAnswer(part, |questions|)]
  }

  function SectionBlockers(s: Section, audio: bool): seq<Blocker> {
    (if audio && s.questions != [] && !HasAudio(s) then [NoAudio(s.part)] else [])
    + MissingAnswers(s.part, s.questions)
  }

  function AllSectionBlockers(sections: seq<Section>, audio: bool): seq<Blocker> {
    if sections == [] then []
    else AllSectionBlockers(sections[..|sections| - 1], audio) + SectionBlockers(sections[|sections| - 1], audio)
  }

  function TaskBlockers(questions: seq<Question>, m: ExamModule): seq<Blocker> {
    if questions == [] then []
    else
      var task := questions[|questions| - 1].task;
      TaskBlockers(questions[..|questions| - 1], m)
      + if task == OtherTask then [BadTask] else if task == NoTask || Fits(task, m) then [] else [WrongModule(task)]
  }

  function AllTaskBlockers(sections: seq<Section>, m: ExamModule): seq<Blocker> {
    if sections == [] then []
    else AllTaskBlockers(sections[..|sections| - 1], m) + TaskBlockers(sections[|sections| - 1].questions, m)
  }

  predicate GateSeesReady(sections: seq<Section>) {
    exists i, k :: 0 <= i < |sections| && 0 <= k < |sections[i].questions| && CountsAsReady(sections[i].questions[k])
  }

  function Blockers(skill: Skill, m: Option<ExamModule>, sections: seq<Section>): seq<Blocker> {
    match skill
    case Listening => if !HasQuestions(sections) then [NoQuestions] else AllSectionBlockers(sections, true)
    case Reading =>
      if !HasQuestions(sections) then [NoQuestions]
      else (if HasPassage(sections) then [] else [NoPassage]) + AllSectionBlockers(sections, false)
    case Writing =>
      (if HasPrompt(sections) then [] else [NoPrompt])
      + if m.None? then [NoModule] else AllTaskBlockers(sections, m.value)
    case Speaking => if GateSeesReady(sections) then [] else [NoReadyQuestion]
  }

  /** bank_publish_blockers. */
  method PublishBlockers(skill: Skill, m: Option<ExamModule>, sections: seq<Section>) returns (blockers: seq<Blocker>)
    ensures blockers == Blockers(skill, m, sections)
  {
    hide HasQuestions, HasPassage, HasPrompt, GateSeesReady, AllSectionBlockers, AllTaskBlockers;
    blockers := [];
    match skill
    case Listening =>
      if !HasQuestions(sections) {
        return [NoQuestions];
      }
      blockers := AnswerBlockers(sections, true);
    case Reading =>
      if !HasQuestions(sections) {
        return [NoQuestions];
      }
      if !HasPassage(sections) {
        blockers := blockers + [NoPassage];
      }
      var missing := AnswerBlockers(sections, false);
      blockers := blockers + missing;
    case Writing =>
      if !HasPrompt(sections) {
        blockers := blockers + [NoPrompt];
      }
      if m.None? {
        return blockers + [NoModule];
      }
      var more := AllTaskErrors(sections, m.value);
      blockers := blockers + more;
    case Speaking =>
      if !GateSeesReady(sections) {
        blockers := [NoReadyQuestion];
      }
  }

  method AnswerBlockers(sections: seq<Section>, audio: bool) returns (blockers: seq<Blocker>)
    ensures blockers == AllSectionBlockers(sections, audio)
  {
    hide HasAudio, IsAnswered;
    blockers := [];
    for i := 0 to |sections|
      invariant blockers == AllSectionBlockers(sections[..i], audio)
    {
      assert sections[..i + 1][..i] == sections[..i];
      var more := OneSection(sections[i], audio);
      blockers := blockers + more;
    }
    assert sections[..|sections|] == sections;
  }

  method OneSection(s: Section, audio: bool) returns (blockers: seq<Blocker>)
    ensures blockers == SectionBlockers(s, audio)
  {
    hide HasAudio, IsAnswered;
    blockers := [];
    if s.questions == [] {
      return;
    }
    if audio && !HasAudio(s) {
      blockers := [NoAudio(s.part)];
    }
    ghost var mark := blockers;
    for k := 0 to |s.questions|
      invariant blockers == mark + MissingAnswers(s.part, s.questions[..k])
    {
      assert s.questions[..k + 1][..k] == s.questions[..k];
      if !IsAnswered(s.questions[k]) {
        blockers := blockers + [NoAnswer(s.part, k + 1)];
      }
    }
    assert s.questions[..|s.questions|] == s.questions;
  }

  /** writing_taxonomy_publish_blockers, once there is an exam module. */
  method AllTaskErrors(sections: seq<Section>, m: ExamModule) returns (blockers: seq<Blocker>)
    ensures blockers == AllTaskBlockers(sections, m)
  {
    hide TaskBlockers;
    blockers := [];
    for i := 0 to |sections|
      invariant blockers == AllTaskBlockers(sections[..i], m)
    {
      assert sections[..i + 1][..i] == sections[..i];
      var more := TaskErrors(sections[i].questions, m);
      blockers := blockers + more;
    }
    assert sections[..|sections|] == sections;
  }

  method TaskErrors(questions: seq<Question>, m: ExamModule) returns (blockers: seq<Blocker>)
    ensures blockers == TaskBlockers(questions, m)
  {
    blockers := [];
    for k := 0 to |questions|
      invariant blockers == TaskBlockers(questions[..k], m)
    {
      assert questions[..k + 1][..k] == questions[..k];
      var task := questions[k].task;
      if task == OtherTask {
        blockers := blockers + [BadTask];
      } else if task != NoTask && !Fits(task, m) {
        blockers := blockers + [WrongModule(task)];
      }
    }
    assert questions[..|questions|] == questions;
  }

  // ---------------------------------------------------------------------------------------
  // The gate is exact

  lemma {:induction false} MissingAnswersIff(part: int, questions: seq<Question>)
    ensures MissingAnswers(part, questions) == [] <==> forall k :: 0 <= k < |questions| ==> IsAnswered(questions[k])
  {
    hide IsAnswered;
    if questions != [] {
      MissingAnswersIff(part, questions[..|questions| - 1]);
    }
  }

  predicate SectionIsFine(s: Section, audio: bool) {
    && (audio && s.questions != [] ==> HasAudio(s))
    && forall k :: 0 <= k < |s.questions| ==> IsAnswered(s.questions[k])
  }

  lemma {:induction false} SectionBlockersIff(sections: seq<Section>, audio: bool)
    ensures AllSectionBlockers(sections, audio) == []
        <==> forall i :: 0 <= i < |sections| ==> SectionIsFine(sections[i], audio)
  {
    hide HasAudio, IsAnswered;
    if sections != [] {
      var last := sections[|sections| - 1];
      SectionBlockersIff(sections[..|sections| - 1], audio);
      MissingAnswersIff(last.part, last.questions);
      assert SectionBlockers(last, audio) == [] <==> SectionIsFine(last, audio);
    }
  }

  lemma {:induction false} TaskBlockersIff(questions: seq<Question>, m: ExamModule)
    ensures TaskBlockers(questions, m) == [] <==> QuestionsFit(questions, m)
  {
    if questions != [] {
      TaskBlockersIff(questions[..|questions| - 1], m);
    }
  }

  lemma {:induction false} AllTaskBlockersIff(sections: seq<Section>, m: ExamModule)
    ensures AllTaskBlockers(sections, m) == [] <==> TasksFit(sections, m)
  {
    hide QuestionsFit, TaskBlockers;
    if sections != [] {
      AllTaskBlockersIff(sections[..|sections| - 1], m);
      TaskBlockersIff(sections[|sections| - 1].questions, m);
    }
  }

  /** No blocker means complete and complete means no blocker, except that a speaking set also
      gets through with a question object that has neither prompt nor video. */
  lemma {:induction false} GateIsExact(skill: Skill, m: Option<ExamModule>, sections: seq<Section>)
    ensures Blockers(skill, m, sections) == []
        <==> Complete(skill, m, sections) || (skill == Speaking && HasVideolessObject(sections))
  {
    hide IsAnswered, HasAudio, HasPassage, HasPrompt, HasQuestions, TasksFit;
    match skill
    case Listening =>
      SectionBlockersIff(sections, true);
      FineIsAnswered(sections, true);
    case Reading =>
      SectionBlockersIff(sections, false);
      FineIsAnswered(sections, false);
    case Writing =>
      if m.Some? {
        AllTaskBlockersIff(sections, m.value);
      }
    case Speaking => SpeakingGate(sections);
  }

  lemma FineIsAnswered(sections: seq<Section>, audio: bool)
    ensures (forall i :: 0 <= i < |sections| ==> SectionIsFine(sections[i], audio))
        <==> AllAnswered(sections)
             && (audio ==> forall i :: 0 <= i < |sections| && sections[i].questions != [] ==> HasAudio(sections[i]))
  {
  }

  lemma SpeakingGate(sections: seq<Section>)
    ensures GateSeesReady(sections) <==> HasReady(sections) || HasVideolessObject(sections)
  {
  }

  /** So a speaking set can be published empty: one question without prompt and video is enough. */
  lemma EmptySpeakingPasses()
    ensures var sections := [Section(1, "", "", [Question("", "", "", "", Object(None), NoTask)])];
            Blockers(Speaking, None, sections) == [] && !Complete(Speaking, None, sections)
  {
    var q := Question("", "", "", "", Object(None), NoTask);
    var sections := [Section(1, "", "", [q])];
    assert sections[0].questions[0] == q;
    assert HasVideolessObject(sections);
    GateIsExact(Speaking, None, sections);
    forall i, k | 0 <= i < |sections| && 0 <= k < |sections[i].questions|
      ensures !IsReady(sections[i].questions[k])
    {
    }
  }

  // ---------------------------------------------------------------------------------------
  // One blocker for each unanswered question

  function CountMissing(blockers: seq<Blocker>): nat {
    if blockers == [] then 0
    else CountMissing(blockers[..|blockers| - 1]) + if blockers[|blockers| - 1].NoAnswer? then 1 else 0
  }

  function Unanswered(questions: seq<Question>): nat {
    if questions == [] then 0
    else Unanswered(questions[..|questions| - 1]) + if IsAnswered(questions[|questions| - 1]) then 0 else 1
  }

  function AllUnanswered(sections: seq<Section>): nat {
    if sections == [] then 0
    else AllUnanswered(sections[..|sections| - 1]) + Unanswered(sections[|sections| - 1].questions)
  }

  lemma {:induction false} CountInParts(a: seq<Blocker>, b: seq<Blocker>)
    ensures CountMissing(a + b) == CountMissing(a) + CountMissing(b)
  {
    if b == [] {
      assert a + b == a;
    } else {
      CountInParts(a, b[..|b| - 1]);
      assert (a + b)[..|a + b| - 1] == a + b[..|b| - 1];
    }
  }

  lemma {:induction false} MissingAreCounted(part: int, questions: seq<Question>)
    ensures CountMissing(MissingAnswers(part, questions)) == Unanswered(questions)
    ensures forall k :: NoAnswer(part, k) in MissingAnswers(part, questions)
                        <==> 1 <= k <= |questions| && !IsAnswered(questions[k - 1])
  {
    hide IsAnswered;
    if questions != [] {
      MissingAreCounted(part, questions[..|questions| - 1]);
      var one := [NoAnswer(part, |questions|)];
      assert one[..0] == [];
      CountInParts(MissingAnswers(part, questions[..|questions| - 1]), one);
      CountInParts(MissingAnswers(part, questions[..|questions| - 1]), []);
    }
  }

  lemma {:induction false} SectionsAreCounted(sections: seq<Section>, audio: bool)
    ensures CountMissing(AllSectionBlockers(sections, audio)) == AllUnanswered(sections)
  {
    hide HasAudio, IsAnswered;
    if sections != [] {
      var (init, last) := (sections[..|sections| - 1], sections[|sections| - 1]);
      SectionsAreCounted(init, audio);
      MissingAreCounted(last.part, last.questions);
      var first := if audio && last.questions != [] && !HasAudio(last) then [NoAudio(last.part)] else [];
      assert first == [] || first[..0] == [];
      CountInParts(first, MissingAnswers(last.part, last.questions));
      CountInParts(AllSectionBlockers(init, audio), SectionBlockers(last, audio));
    }
  }

  /** A listening or reading set with questions gets one missing-answer blocker for each
      unanswered question. */
  lemma OneBlockerEach(skill: Skill, m: Option<ExamModule>, sections: seq<Section>)
    requires skill == Listening || skill == Reading
    requires HasQuestions(sections)
    ensures CountMissing(Blockers(skill, m, sections)) == AllUnanswered(sections)
  {
    hide AllSectionBlockers, AllUnanswered, HasPassage, HasQuestions;
    SectionsAreCounted(sections, skill == Listening);
    var first := if HasPassage(sections) then [] else [NoPassage];
    assert first == [] || first[..0] == [];
    CountInParts(first, AllSectionBlockers(sections, false));
  }
}
