/** What each admin operation of app/admin/question_bank.py asks for and what it leaves, set by set
    and part by part. */
module PracticeOperations {
  import opened Wrappers
  import opened PublishGate
  import opened PracticeCatalog
  import Text

  /** One section for each part, in the order of parts. */
  predicate InOrder(sections: seq<Section>) {
    forall i, j :: 0 <= i < j < |sections| ==> sections[i].part < sections[j].part
  }

  /** The part of s holds s and nothing else; the sections of all other parts are the same. */
  ghost predicate IsReplaced(before: seq<Section>, after: seq<Section>, s: Section) {
    && InOrder(after)
    && (forall x: Section :: x.part == s.part ==> (x in after <==> x == s))
    && (forall x: Section :: x.part != s.part ==> (x in after <==> x in before))
  }

  lemma {:induction false} SectionIsReplaced(sections: seq<Section>, s: Section)
    requires InOrder(sections)
    ensures IsReplaced(sections, WithSection(sections, s), s)
    ensures sections != [] && sections[0].part < s.part ==> WithSection(sections, s)[0] == sections[0]
  {
    if sections == [] || s.part < sections[0].part {
      assert forall x :: x in [s] + sections <==> x == s || x in sections;
    } else if sections[0].part == s.part {
      assert sections == [sections[0]] + sections[1..];
      assert forall x :: x in sections <==> x == sections[0] || x in sections[1..];
      assert forall x :: x in [s] + sections[1..] <==> x == s || x in sections[1..];
    } else {
      var rest := WithSection(sections[1..], s);
      SectionIsReplaced(sections[1..], s);
      assert sections == [sections[0]] + sections[1..];
      assert forall x :: x in sections <==> x == sections[0] || x in sections[1..];
      assert forall x :: x in [sections[0]] + rest <==> x == sections[0] || x in rest;
      forall j | 0 <= j < |rest| ensures sections[0].part < rest[j].part {
        assert rest[j] in rest;
        assert rest[j] == s || rest[j] in sections[1..];
      }
    }
  }

  lemma {:induction false} QuestionsAreKept(sections: seq<Section>, part: int)
    requires InOrder(sections)
    ensures forall x :: x in sections && x.part == part ==> QuestionsOf(sections, part) == x.questions
    ensures (forall x :: x in sections ==> x.part != part) ==> QuestionsOf(sections, part) == []
  {
    if sections != [] {
      QuestionsAreKept(sections[1..], part);
      assert forall x :: x in sections <==> x == sections[0] || x in sections[1..] by {
        assert sections == [sections[0]] + sections[1..];
      }
      if sections[0].part == part {
        forall x | x in sections && x.part == part ensures x == sections[0] {
          var j :| 0 <= j < |sections| && sections[j] == x;
        }
      }
    }
  }

  /** How far a save has come. */
  ghost predicate IsWrittenUpTo(before: seq<Section>, after: seq<Section>, s: Section, halt: Halt) {
    match halt
    case BeforeSection => after == before
    case AfterSection =>
      exists kept: seq<Question> ::
        && IsReplaced(before, after, s.(questions := kept))
        && (forall x :: x in before && x.part == s.part ==> x.questions == kept)
        && ((forall x :: x in before ==> x.part != s.part) ==> kept == [])
    case AfterDelete => IsReplaced(before, after, s.(questions := []))
    case _ => IsReplaced(before, after, s)
  }

  lemma {:induction false} SectionsAreWritten(before: seq<Section>, s: Section, halt: Halt)
    requires InOrder(before)
    ensures IsWrittenUpTo(before, Written(before, s, halt), s, halt)
    ensures InOrder(Written(before, s, halt))
  {
    hide WithSection;
    match halt
    case BeforeSection =>
    case AfterSection =>
      var kept := QuestionsOf(before, s.part);
      QuestionsAreKept(before, s.part);
      SectionIsReplaced(before, s.(questions := kept));
    case AfterDelete => SectionIsReplaced(before, s.(questions := []));
    case _ => SectionIsReplaced(before, s);
  }

  /** All sets but one are as they were. */
  ghost predicate OnlySet(before: State, after: State, id: Id) {
    forall k :: k != id ==> (k in after.sets <==> k in before.sets) && (k in before.sets ==> after.sets[k] == before.sets[k])
  }

  /** A listening, reading or speaking save is accepted exactly for a set of that skill, a part that
      it can have, audio that is not blank for listening, and a video for each question of the
      second speaking part. It replaces the section of its part, as far as it comes, and nothing
      else in the set or outside. */
  lemma {:induction false} SaveReplacesPart(state: State, id: Id, skill: Skill, section: Section, halt: Halt, b: Bumps)
    requires id in state.sets && InOrder(state.sets[id].sections)
    ensures var (after, r) := Apply(state, Save(id, skill, section, halt, b));
            var accepted := state.sets[id].skill == skill && skill != Writing && 1 <= section.part
              && section.part <= (if skill == Speaking then 3 else 4)
              && (skill == Listening ==> Text.Strip(section.audio) != "")
              && (skill == Speaking && section.part == 2 ==>
                    forall q :: q in section.questions ==>
                      q.options.Object? && q.options.video.Some? && Text.Strip(q.options.video.value) != "");
            && (r == Refused <==> !accepted) && (!accepted ==> after == state)
            && (r == Done ==> halt == NoHalt)
            && OnlySet(state, after, id) && id in after.sets
            && after.sets[id] == state.sets[id].(sections := after.sets[id].sections)
            && (accepted ==> IsWrittenUpTo(state.sets[id].sections, after.sets[id].sections, section, halt))
            && InOrder(after.sets[id].sections)
  {
    hide Written, IsWrittenUpTo, Raise, Text.Strip;
    SectionsAreWritten(state.sets[id].sections, section, halt);
    assert forall q :: q in section.questions <==> exists k :: 0 <= k < |section.questions| && section.questions[k] == q;
  }

  /** A writing save is accepted exactly for a writing set, one of its two parts, a prompt that is
      not blank and a task type of that part. It sets the exam module it gives, and if the task type
      goes with the module the section holds the prompt and one question of that type. */
  lemma {:induction false} WritingReplacesPart(state: State, id: Id, part: int, prompt: string, task: Option<Task>,
                                               m: Option<ExamModule>, halt: Halt, b: Bumps)
    requires id in state.sets && InOrder(state.sets[id].sections)
    ensures var (after, r) := Apply(state, SaveWriting(id, part, prompt, task, m, halt, b));
            var kind := if task.None? then (if part == 1 then Task1Academic else Task2) else task.value;
            var accepted := state.sets[id].skill == Writing && (part == 1 || part == 2) && Text.Strip(prompt) != ""
              && (if part == 1 then kind == Task1Academic || kind == Task1General else kind == Task2);
            var m' := if m.Some? then m else state.sets[id].m;
            var fits := m'.Some? && !(kind == Task1Academic && m' == Some(General))
              && !(kind == Task1General && m' == Some(Academic));
            var text := Text.Strip(prompt);
            var section := Section(part, "", text, [Question(text, "", "", "", Object(None), kind)]);
            && OnlySet(state, after, id) && id in after.sets
            && after.sets[id] == state.sets[id].(sections := after.sets[id].sections, m := after.sets[id].m)
            && (!accepted ==> r == Refused && after == state)
            && (accepted ==> after.sets[id].m == m')
            && (accepted && !fits && halt != BeforeSection ==> r == Refused && after.sets[id].sections == state.sets[id].sections)
            && (accepted && fits ==>
                  r != Refused && IsWrittenUpTo(state.sets[id].sections, after.sets[id].sections, section, halt))
  {
    hide Written, IsWrittenUpTo, Raise, Text.Strip;
    var kind := if task.None? then (if part == 1 then Task1Academic else Task2) else task.value;
    var text := Text.Strip(prompt);
    SectionsAreWritten(state.sets[id].sections, Section(part, "", text, [Question(text, "", "", "", Object(None), kind)]), halt);
  }

  /** A set is created exactly with a title, not published, and with an exam module exactly for
      writing; it starts custom, empty and as asked. */
  lemma {:induction false} CreateAdds(state: State, id: Id, skill: Skill, titled: bool, status: Status, m: Option<ExamModule>)
    requires id !in state.sets
    ensures var (after, r) := Apply(state, Create(id, skill, titled, status, m));
            var accepted := titled && status != Published && (skill == Writing <==> m.Some?);
            && (r == Refused <==> !accepted) && (!accepted ==> after == state)
            && (accepted ==>
                  r == Done && after.version == state.version && OnlySet(state, after, id) && id in after.sets
                  && after.sets[id] == PracticeSet(skill, status, true, m, [], "", ""))
  {
  }

  /** A status change writes the status and nothing else, if the gate lets it. */
  lemma {:induction false} StatusIsSet(state: State, id: Id, next: Status, path: Path)
    requires id in state.sets
    ensures var (after, r) := Apply(state, SetStatus(id, next, path));
            var ps := state.sets[id];
            var blocked := next == Published && Blockers(ps.skill, ps.m, ps.sections) != [];
            && OnlySet(state, after, id) && id in after.sets
            && (blocked ==> r == Refused && after == state)
            && (!blocked && path.Broken? ==> after == state)
            && (!blocked && !path.Broken? ==> after.sets[id] == ps.(status := next))
            && (!blocked && path == InTransaction(false) ==>
                  r == Done
                  && after.version == if ps.status != next && (ps.status == Published || next == Published)
                                      then state.version + 1 else state.version)
  {
    hide Blockers;
  }

  /** An exam module is set exactly on a writing set whose every task type goes with it. */
  lemma {:induction false} ModuleIsSet(state: State, id: Id, m: Option<ExamModule>, cut: bool, b: Bumps)
    requires id in state.sets
    ensures var (after, r) := Apply(state, PatchModule(id, m, cut, b));
            var ps := state.sets[id];
            var accepted := m.Some? && ps.skill == Writing
              && forall s, q :: s in ps.sections && q in s.questions && q.task != NoTask ==>
                   && q.task != OtherTask
                   && !(q.task == Task1Academic && m == Some(General)) && !(q.task == Task1General && m == Some(Academic));
            && (r == Refused <==> !accepted) && (!accepted ==> after == state)
            && (accepted ==> OnlySet(state, after, id) && id in after.sets && after.sets[id] == ps.(m := m))
  {
    if m.Some? {
      TasksFitIff(state.sets[id].sections, m.value);
    }
  }

  lemma {:induction false} TasksFitIff(sections: seq<Section>, m: ExamModule)
    ensures TasksFit(sections, m) <==>
      forall s, q :: s in sections && q in s.questions && q.task != NoTask ==>
        && q.task != OtherTask
        && !(q.task == Task1Academic && m == General) && !(q.task == Task1General && m == Academic)
  {
    if TasksFit(sections, m) {
      forall s, q | s in sections && q in s.questions && q.task != NoTask ensures Fits(q.task, m) {
        var i :| 0 <= i < |sections| && sections[i] == s;
        assert QuestionsFit(sections[i].questions, m);
      }
    } else {
      var i :| 0 <= i < |sections| && !QuestionsFit(sections[i].questions, m);
      var k :| 0 <= k < |sections[i].questions|
        && !(sections[i].questions[k].task == NoTask || Fits(sections[i].questions[k].task, m));
      assert sections[i] in sections && sections[i].questions[k] in sections[i].questions;
    }
  }

  /** Exactly custom sets that nothing refers to go. */
  lemma {:induction false} DeleteRemoves(state: State, id: Id, referenced: bool, cut: bool, b: Bumps)
    requires id in state.sets
    ensures var (after, r) := Apply(state, Delete(id, referenced, cut, b));
            var accepted := state.sets[id].custom && !referenced;
            && (r == Refused <==> !accepted) && (!accepted ==> after == state)
            && (accepted ==> OnlySet(state, after, id) && id !in after.sets)
  {
  }

  /** An intro that is not blank is stored, trimmed, in its own form. */
  lemma {:induction false} IntroIsSet(state: State, id: Id, isStream: bool, key: string, cut: bool, b: Bumps)
    requires id in state.sets
    ensures var (after, r) := Apply(state, SetIntro(id, isStream, key, cut, b));
            var ps := state.sets[id];
            && (r == Refused <==> Text.Strip(key) == "") && (r == Refused ==> after == state)
            && (r != Refused ==>
                  && OnlySet(state, after, id) && id in after.sets
                  && after.sets[id] == if isStream then ps.(stream := Text.Strip(key)) else ps.(video := Text.Strip(key)))
  {
    hide Text.Strip;
  }

  /** Nothing happens to a set that is not there. */
  lemma {:induction false} UnknownIsRefused(state: State, op: Op)
    requires op.id !in state.sets && !op.Create?
    ensures Apply(state, op) == (state, Refused)
  {
  }

  /** How far up to three tries raise the version: each that is made counts unless it fails, and the
      first that reports success is the last. */
  function Risen(b: Bumps): nat {
    (if b.first == Fails then 0 else 1)
    + (if b.first == Works then 0
       else (if b.second == Fails then 0 else 1)
            + if b.second == Works || b.third == Fails then 0 else 1)
  }

  predicate Reports(b: Bumps) { b.first == Works || b.second == Works || b.third == Works }

  /** What a write that was made does to the version: nothing when it is stopped or students do not
      see it, and otherwise what the tries do, which are also what it reports. */
  predicate IsRaised(before: State, after: State, r: Outcome, visible: bool, stopped: bool, b: Bumps) {
    && after.version == before.version + (if visible && !stopped then Risen(b) else 0)
    && (r == Done <==> !stopped && (visible ==> Reports(b)))
    && r != Refused
  }

  /** Students see a status change when the set was or becomes published, and any other write when
      it is published. A refusal leaves the version. */
  lemma {:induction false} VersionIsRaised(state: State, op: Op)
    requires op.id in state.sets && !op.Create?
    ensures var (after, r) := Apply(state, op);
            var was := state.sets[op.id].status == Published;
            && (r == Refused ==> after.version == state.version)
            && (r != Refused ==>
                  match op
                  case SetStatus(_, next, path) =>
                    (match path
                     case Broken => r == Raised && after.version == state.version
                     case InTransaction(cut) =>
                       && after.version == state.version + (if was != (next == Published) then 1 else 0)
                       && r == (if cut then Raised else Done)
                     case Fallback(cut, b) => IsRaised(state, after, r, was != (next == Published), cut, b))
                  case Save(_, _, _, halt, b) => IsRaised(state, after, r, was, halt != NoHalt, b)
                  case SaveWriting(_, _, _, _, _, halt, b) => IsRaised(state, after, r, was, halt != NoHalt, b)
                  case PatchModule(_, _, cut, b) => IsRaised(state, after, r, was, cut, b)
                  case Delete(_, _, cut, b) => IsRaised(state, after, r, was, cut, b)
                  case SetIntro(_, _, _, cut, b) =>
                    && after.version == state.version + (if was && !cut then Risen(b) else 0)
                    && r == (if cut then Raised else Done))
  {
    hide Blockers, MaySave, Written, TasksFit, TaskFor, WritingSection, Fits;
  }

  /** What a student sees of a set is the same: published or not, and then with the same module,
      sections, video and stream. */
  ghost predicate LooksTheSame(before: State, after: State, id: Id) {
    var (was, now) := (id in before.sets && before.sets[id].status == Published,
                       id in after.sets && after.sets[id].status == Published);
    && was == now
    && (was ==>
          && after.sets[id].m == before.sets[id].m && after.sets[id].sections == before.sets[id].sections
          && after.sets[id].video == before.sets[id].video && after.sets[id].stream == before.sets[id].stream)
  }

  /** So while operations report success, and no intro save fails to raise the version, two states
      of a run with one version look the same to every student. */
  lemma {:induction false} SameVersionLooksTheSame(state: State, ops: seq<Op>, id: Id)
    requires forall k :: 0 <= k < |ops| ==>
      && Apply(Run(state, ops[..k]), ops[k]).1 == Done
      && (ops[k].SetIntro? ==>
            !(ops[k].bumps.first == Fails && ops[k].bumps.second == Fails && ops[k].bumps.third == Fails))
    requires Run(state, ops).version == state.version
    ensures LooksTheSame(state, Run(state, ops), id)
  {
    hide Apply, Run;
    GoodRunIsNoticed(state, ops);
    assert id in Shown(state.sets) <==> id in Shown(Run(state, ops).sets);
    assert id in Shown(state.sets) ==> Shown(state.sets)[id] == Shown(Run(state, ops).sets)[id];
  }

  // ---------------------------------------------------------------------------------------
  // The gate

  /** A listening set is let through exactly with a question, an answer that is not blank to every
      question, and audio for every section with questions. */
  lemma {:induction false} ListeningGate(m: Option<ExamModule>, sections: seq<Section>)
    ensures Blockers(Listening, m, sections) == [] <==>
      && (exists s :: s in sections && s.questions != [])
      && (forall s, q :: s in sections && q in s.questions ==> Text.Strip(q.answer) != "")
      && (forall s :: s in sections && s.questions != [] ==>
            Text.Strip(s.audio) != "" || exists q :: q in s.questions && Text.Strip(q.audio) != "")
  {
    hide Text.Strip, Blockers;
    GateIsExact(Listening, m, sections);
    SectionsHave(sections);
    forall s | s in sections
      ensures HasAudio(s) <==> Text.Strip(s.audio) != "" || exists q :: q in s.questions && Text.Strip(q.audio) != ""
    {
      AudioIs(s);
    }
    assert forall i :: 0 <= i < |sections| ==> sections[i] in sections;
  }

  lemma {:induction false} AudioIs(s: Section)
    ensures HasAudio(s) <==> Text.Strip(s.audio) != "" || exists q :: q in s.questions && Text.Strip(q.audio) != ""
  {
    hide Text.Strip;
    assert forall k :: 0 <= k < |s.questions| ==> s.questions[k] in s.questions;
  }

  lemma {:induction false} SectionsHave(sections: seq<Section>)
    ensures HasQuestions(sections) <==> exists s :: s in sections && s.questions != []
    ensures AllAnswered(sections) <==> forall s, q :: s in sections && q in s.questions ==> Text.Strip(q.answer) != ""
  {
    hide Text.Strip;
    assert forall i :: 0 <= i < |sections| ==> sections[i] in sections;
    assert forall s: Section, k :: 0 <= k < |s.questions| ==> s.questions[k] in s.questions;
  }

  /** A reading set exactly with a question, a passage and an answer to every question. */
  lemma {:induction false} ReadingGate(m: Option<ExamModule>, sections: seq<Section>)
    ensures Blockers(Reading, m, sections) == [] <==>
      && (exists s :: s in sections && s.questions != [])
      && (exists s :: s in sections
            && (Text.Strip(s.passage) != "" || exists q :: q in s.questions && Text.Strip(q.passage) != ""))
      && (forall s, q :: s in sections && q in s.questions ==> Text.Strip(q.answer) != "")
  {
    hide Text.Strip, Blockers;
    GateIsExact(Reading, m, sections);
    SectionsHave(sections);
    PassageIs(sections);
  }

  lemma {:induction false} PassageIs(sections: seq<Section>)
    ensures HasPassage(sections) <==>
      exists s :: s in sections && (Text.Strip(s.passage) != "" || exists q :: q in s.questions && Text.Strip(q.passage) != "")
    ensures HasPrompt(sections) <==>
      exists s :: s in sections && (Text.Strip(s.passage) != "" || exists q :: q in s.questions && Text.Strip(q.prompt) != "")
  {
    hide Text.Strip;
    assert forall i :: 0 <= i < |sections| ==> sections[i] in sections;
    assert forall s: Section, k :: 0 <= k < |s.questions| ==> s.questions[k] in s.questions;
  }

  /** A writing set exactly with a prompt, an exam module, and task types that go with it. */
  lemma {:induction false} WritingGate(m: Option<ExamModule>, sections: seq<Section>)
    ensures Blockers(Writing, m, sections) == [] <==>
      && (exists s :: s in sections
            && (Text.Strip(s.passage) != "" || exists q :: q in s.questions && Text.Strip(q.prompt) != ""))
      && m.Some?
      && forall s, q :: s in sections && q in s.questions && q.task != NoTask ==>
           && q.task != OtherTask
           && !(q.task == Task1Academic && m == Some(General)) && !(q.task == Task1General && m == Some(Academic))
  {
    hide Text.Strip, Blockers, TasksFit;
    GateIsExact(Writing, m, sections);
    PassageIs(sections);
    if m.Some? {
      TasksFitIff(sections, m.value);
    }
  }

  /** A speaking set exactly with a question that has a prompt, or an options object whose video is
      missing, null or not blank. */
  lemma {:induction false} SpeakingGateIs(m: Option<ExamModule>, sections: seq<Section>)
    ensures Blockers(Speaking, m, sections) == [] <==>
      exists s, q :: s in sections && q in s.questions
                     && (Text.Strip(q.prompt) != ""
                         || (q.options.Object? && (q.options.video.None? || Text.Strip(q.options.video.value) != "")))
  {
    hide Blockers;
    GateIsExact(Speaking, m, sections);
    ReadyIs(sections);
  }

  lemma {:induction false} ReadyIs(sections: seq<Section>)
    ensures HasReady(sections) || HasVideolessObject(sections) <==>
      exists s, q :: s in sections && q in s.questions
                     && (Text.Strip(q.prompt) != ""
                         || (q.options.Object? && (q.options.video.None? || Text.Strip(q.options.video.value) != "")))
  {
    hide Text.Strip;
    assert forall i :: 0 <= i < |sections| ==> sections[i] in sections;
    assert forall s: Section, k :: 0 <= k < |s.questions| ==> s.questions[k] in s.questions;
  }

  // ---------------------------------------------------------------------------------------
  // What the gate says

  /** The section has questions and no audio, and the blocker names its part; or its question k has
      a blank answer, and the blocker names part and place. */
  ghost predicate IsBlockedBy(s: Section, audio: bool, b: Blocker) {
    || (audio && b == NoAudio(s.part) && s.questions != [] && Text.Strip(s.audio) == ""
        && forall q :: q in s.questions ==> Text.Strip(q.audio) == "")
    || exists k :: 0 <= k < |s.questions| && Text.Strip(s.questions[k].answer) == "" && b == NoAnswer(s.part, k + 1)
  }

  lemma {:induction false} SectionBlockersAre(s: Section, audio: bool, b: Blocker)
    ensures b in SectionBlockers(s, audio) <==> IsBlockedBy(s, audio, b)
  {
    hide Text.Strip, MissingAnswers, HasAudio;
    AudioIs(s);
    BlankAnswersAre(s.part, s.questions, b);
  }

  lemma {:induction false} BlankAnswersAre(part: int, questions: seq<Question>, b: Blocker)
    ensures b in MissingAnswers(part, questions) <==>
      exists k :: 0 <= k < |questions| && Text.Strip(questions[k].answer) == "" && b == NoAnswer(part, k + 1)
  {
    hide Text.Strip, MissingAnswers;
    MissingAreCounted(part, questions);
    if b in MissingAnswers(part, questions) {
      MissingAreAnswers(part, questions, b);
      assert NoAnswer(part, b.number) in MissingAnswers(part, questions);
      assert Text.Strip(questions[b.number - 1].answer) == "";
    }
  }

  lemma {:induction false} MissingAreAnswers(part: int, questions: seq<Question>, b: Blocker)
    requires b in MissingAnswers(part, questions)
    ensures b.NoAnswer? && b.part == part && b.number >= 1
  {
    hide IsAnswered;
    if b in MissingAnswers(part, questions[..|questions| - 1]) {
      MissingAreAnswers(part, questions[..|questions| - 1], b);
    }
  }

  lemma {:induction false} AllBlockersAre(sections: seq<Section>, audio: bool, b: Blocker)
    ensures b in AllSectionBlockers(sections, audio) <==> exists s :: s in sections && IsBlockedBy(s, audio, b)
  {
    hide SectionBlockers, IsBlockedBy;
    if sections != [] {
      var (init, last) := (sections[..|sections| - 1], sections[|sections| - 1]);
      AllBlockersAre(init, audio, b);
      SectionBlockersAre(last, audio, b);
      assert sections == init + [last];
    }
  }

  /** A listening or reading set without questions is told just that. Otherwise a listening set is told
      of every section without audio and every blank answer, and of nothing else; a reading set of
      every blank answer, and of a missing passage. */
  lemma {:induction false} AnswersAreNamed(m: Option<ExamModule>, sections: seq<Section>, b: Blocker)
    ensures (forall s :: s in sections ==> s.questions == []) ==>
      Blockers(Listening, m, sections) == Blockers(Reading, m, sections) == [NoQuestions]
    ensures (exists s :: s in sections && s.questions != []) ==>
      && (b in Blockers(Listening, m, sections) <==> exists s :: s in sections && IsBlockedBy(s, true, b))
      && (b in Blockers(Reading, m, sections) <==>
            || (exists s :: s in sections && IsBlockedBy(s, false, b))
            || (b == NoPassage && forall s :: s in sections ==>
                  Text.Strip(s.passage) == "" && forall q :: q in s.questions ==> Text.Strip(q.passage) == ""))
  {
    hide AllSectionBlockers, IsBlockedBy, Text.Strip;
    SectionsHave(sections);
    PassageIs(sections);
    AllBlockersAre(sections, true, b);
    AllBlockersAre(sections, false, b);
  }

  /** A task that the gate does not know, or one that does not go with the module. */
  ghost predicate IsTaskFault(q: Question, m: ExamModule, b: Blocker) {
    || (q.task == OtherTask && b == BadTask)
    || (b == WrongModule(q.task) && ((q.task == Task1Academic && m == General) || (q.task == Task1General && m == Academic)))
  }

  lemma {:induction false} TaskFaultsAre(questions: seq<Question>, m: ExamModule, b: Blocker)
    ensures b in TaskBlockers(questions, m) <==> exists q :: q in questions && IsTaskFault(q, m, b)
  {
    if questions != [] {
      var (init, last) := (questions[..|questions| - 1], questions[|questions| - 1]);
      TaskFaultsAre(init, m, b);
      var more := if last.task == OtherTask then [BadTask]
                  else if last.task == NoTask || Fits(last.task, m) then [] else [WrongModule(last.task)];
      assert TaskBlockers(questions, m) == TaskBlockers(init, m) + more;
      assert b in more <==> IsTaskFault(last, m, b);
      assert questions == init + [last];
    }
  }

  lemma {:induction false} AllTaskFaultsAre(sections: seq<Section>, m: ExamModule, b: Blocker)
    ensures b in AllTaskBlockers(sections, m) <==> exists s, q :: s in sections && q in s.questions && IsTaskFault(q, m, b)
  {
    hide TaskBlockers, IsTaskFault;
    if sections != [] {
      var (init, last) := (sections[..|sections| - 1], sections[|sections| - 1]);
      AllTaskFaultsAre(init, m, b);
      TaskFaultsAre(last.questions, m, b);
      assert sections == init + [last];
    }
  }

  /** A writing set is told of a missing prompt, of a missing module, or else of every such task. */
  lemma {:induction false} TasksAreNamed(m: Option<ExamModule>, sections: seq<Section>, b: Blocker)
    ensures b in Blockers(Writing, m, sections) <==>
      || (b == NoPrompt && forall s :: s in sections ==>
            Text.Strip(s.passage) == "" && forall q :: q in s.questions ==> Text.Strip(q.prompt) == "")
      || (b == NoModule && m.None?)
      || (m.Some? && exists s, q :: s in sections && q in s.questions && IsTaskFault(q, m.value, b))
    ensures b in Blockers(Speaking, m, sections) ==> b == NoReadyQuestion
  {
    hide AllTaskBlockers, IsTaskFault, Text.Strip;
    PassageIs(sections);
    if m.Some? {
      AllTaskFaultsAre(sections, m.value, b);
    }
  }
}
