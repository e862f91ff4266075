/** The practice sets and the catalogue version that students' caches follow: the admin operations
    of app/admin/question_bank.py, one at a time, with the status function of
    supabase/migrations/20260818123000_practice_publish_bumps_catalog_version.sql. */
module PracticeCatalog {
  import opened Wrappers
  import opened PublishGate
  import Text

  type Id = string
  datatype Status = Draft | Published | Archived
  /** The video and the stream are the two forms of a set's intro. */
  datatype PracticeSet = PracticeSet(skill: Skill, status: Status, custom: bool, m: Option<ExamModule>,
                                     sections: seq<Section>, video: string, stream: string)
  datatype State = State(sets: map<Id, PracticeSet>, version: nat)

  /** What one try to raise the version comes to; a lost reply leaves it raised. */
  datatype Attempt = Works | Fails | LosesReply
  datatype Bumps = Bumps(first: Attempt, second: Attempt, third: Attempt)

  /** Where an exception ends a save: before its section is touched, after the section's own
      columns are written, after its old questions are deleted, or after its new ones are in, when
      the hubs are refreshed. A write whose reply is lost counts as made. */
  datatype Halt = NoHalt | BeforeSection | AfterSection | AfterDelete | AfterWrites

  /** Whether the status function of the database is there, fails, or lacks the version function,
      so that the status is written directly and the version raised afterwards. `cut` says that an
      exception follows the write: its reply is lost, or the hubs cannot be refreshed. */
  datatype Path = InTransaction(cut: bool) | Broken | Fallback(cut: bool, bumps: Bumps)

  datatype Op =
    | Create(id: Id, skill: Skill, titled: bool, status: Status, m: Option<ExamModule>)
    | SetStatus(id: Id, next: Status, path: Path)
    | Save(id: Id, skill: Skill, section: Section, halt: Halt, bumps: Bumps)
    | SaveWriting(id: Id, part: int, prompt: string, task: Option<Task>, m: Option<ExamModule>, halt: Halt, bumps: Bumps)
    | PatchModule(id: Id, m: Option<ExamModule>, cut: bool, bumps: Bumps)
    | Delete(id: Id, referenced: bool, cut: bool, bumps: Bumps)
    | SetIntro(id: Id, isStream: bool, key: string, cut: bool, bumps: Bumps)

  /** `Raised`: an exception other than a refusal, after some write or when the version cannot be
      raised. */
  datatype Outcome = Done | Refused | Raised

  // ---------------------------------------------------------------------------------------
  // Raising the version

  function Applied(a: Attempt): nat { if a == Fails then 0 else 1 }

  /** How far three tries, up to the first that works, raise the version. */
  function Raise(b: Bumps): nat {
    if b.first == Works then 1
    else Applied(b.first) + if b.second == Works then 1 else Applied(b.second) + Applied(b.third)
  }

  predicate SomeWorks(b: Bumps) { b.first == Works || b.second == Works || b.third == Works }

  predicate AllFail(b: Bumps) { b.first == Fails && b.second == Fails && b.third == Fails }

  /** The state and outcome after a write, which students may see and an exception may follow. */
  function Finished(state: State, visible: bool, halted: bool, b: Bumps): (State, Outcome) {
    if halted then (state, Raised)
    else if !visible then (state, Done)
    else (state.(version := state.version + Raise(b)), if SomeWorks(b) then Done else Raised)
  }

  // ---------------------------------------------------------------------------------------
  // The operations

  function MaxPart(skill: Skill): int {
    match skill case Listening => 4 case Reading => 4 case Writing => 2 case Speaking => 3
  }

  /** The section in place of the one with its part, or as a new one, in the order of parts. */
  function WithSection(sections: seq<Section>, s: Section): seq<Section> {
    if sections == [] || s.part < sections[0].part then [s] + sections
    else if sections[0].part == s.part then [s] + sections[1..]
    else [sections[0]] + WithSection(sections[1..], s)
  }

  function QuestionsOf(sections: seq<Section>, part: int): seq<Question> {
    if sections == [] then []
    else if sections[0].part == part then sections[0].questions
    else QuestionsOf(sections[1..], part)
  }

  /** The sections that a save leaves. */
  function Written(sections: seq<Section>, s: Section, halt: Halt): seq<Section> {
    match halt
    case BeforeSection => sections
    case AfterSection => WithSection(sections, s.(questions := QuestionsOf(sections, s.part)))
    case AfterDelete => WithSection(sections, s.(questions := []))
    case _ => WithSection(sections, s)
  }

  /** What the three builders that are not for writing ask of a section. */
  predicate MaySave(skill: Skill, s: Section) {
    && skill != Writing
    && 1 <= s.part <= MaxPart(skill)
    && (skill == Listening ==> !IsBlank(s.audio))
    && (skill == Speaking && s.part == 2 ==> forall k :: 0 <= k < |s.questions| ==> HasVideo(s.questions[k]))
  }

  /** The task type of a writing save: the default of its part, or the one asked for if it belongs there. */
  function TaskFor(part: int, task: Option<Task>): Option<Task> {
    if task.None? then Some(if part == 1 then Task1Academic else Task2)
    else if task.value in {NoTask, OtherTask} then None
    else if (part == 1) == (task.value == Task2) then None
    else task
  }

  function WritingSection(part: int, prompt: string, task: Task): Section {
    var text := Text.Strip(prompt);
    Section(part, "", text, [Question(text, "", "", "", Object(None), task)])
  }

  predicate MayCreate(op: Op)
    requires op.Create?
  {
    && op.titled && op.status != Published
    && (op.m.Some? <==> op.skill == Writing)
  }

  predicate MayPatch(ps: PracticeSet, m: Option<ExamModule>) {
    m.Some? && ps.skill == Writing && TasksFit(ps.sections, m.value)
  }

  predicate MayWrite(ps: PracticeSet, op: Op)
    requires op.SaveWriting?
  {
    ps.skill == Writing && 1 <= op.part <= MaxPart(Writing) && !IsBlank(op.prompt) && TaskFor(op.part, op.task).Some?
  }

  /** True when entering or leaving `published`. */
  predicate StudentVisibleChange(prev: Status, next: Status) {
    prev != next && (prev == Published || next == Published)
  }

  function ModuleAfter(ps: PracticeSet, m: Option<ExamModule>): Option<ExamModule> { if m.Some? then m else ps.m }

  function WithIntro(ps: PracticeSet, isStream: bool, key: string): PracticeSet {
    if isStream then ps.(stream := Text.Strip(key)) else ps.(video := Text.Strip(key))
  }

  function Apply(state: State, op: Op): (State, Outcome) {
    match op
    case Create(id, skill, titled, status, m) =>
      if !MayCreate(op) || id in state.sets then (state, Refused)
      else (state.(sets := state.sets[id := PracticeSet(skill, status, true, m, [], "", "")]), Done)
    case SetStatus(id, next, path) =>
      if id !in state.sets then (state, Refused)
      else
        var ps := state.sets[id];
        if next == Published && Blockers(ps.skill, ps.m, ps.sections) != [] then (state, Refused)
        else
          var written := state.(sets := state.sets[id := ps.(status := next)]);
          if path.Broken? then (state, Raised)
          else if path.InTransaction? then
            (written.(version := state.version + if (next == Published) != (ps.status == Published) then 1 else 0),
             if path.cut then Raised else Done)
          else Finished(written, StudentVisibleChange(ps.status, next), path.cut, path.bumps)
    case Save(id, skill, section, halt, bumps) =>
      if id !in state.sets || state.sets[id].skill != skill || !MaySave(skill, section) then (state, Refused)
      else
        var ps := state.sets[id];
        Finished(state.(sets := state.sets[id := ps.(sections := Written(ps.sections, section, halt))]),
                 ps.status == Published, halt != NoHalt, bumps)
    case SaveWriting(id, part, prompt, task, m, halt, bumps) =>
      if id !in state.sets || !MayWrite(state.sets[id], op) then (state, Refused)
      else
        var ps := state.sets[id].(m := ModuleAfter(state.sets[id], m));
        var tagged := state.(sets := state.sets[id := ps]);
        var kind := TaskFor(part, task).value;
        if halt != BeforeSection && (ps.m.None? || !Fits(kind, ps.m.value)) then (tagged, Refused)
        else
          var sections := Written(ps.sections, WritingSection(part, prompt, kind), halt);
          Finished(state.(sets := state.sets[id := ps.(sections := sections)]), ps.status == Published, halt != NoHalt, bumps)
    case PatchModule(id, m, cut, bumps) =>
      if id !in state.sets || !MayPatch(state.sets[id], m) then (state, Refused)
      else
        var ps := state.sets[id];
        Finished(state.(sets := state.sets[id := ps.(m := m)]), ps.status == Published, cut, bumps)
    case Delete(id, referenced, cut, bumps) =>
      if id !in state.sets || !state.sets[id].custom || referenced then (state, Refused)
      else Finished(state.(sets := state.sets - {id}), state.sets[id].status == Published, cut, bumps)
    case SetIntro(id, isStream, key, cut, bumps) =>
      if IsBlank(key) || id !in state.sets then (state, Refused)
      else
        var ps := state.sets[id];
        var (after, r) := Finished(state.(sets := state.sets[id := WithIntro(ps, isStream, key)]),
                                   ps.status == Published, cut, bumps);
        // a failure to raise the version is swallowed
        (after, if cut then Raised else Done)
  }

  class Catalog {
    var sets: map<Id, PracticeSet>
    var version: nat

    constructor (sets: map<Id, PracticeSet>)
      ensures View() == State(sets, 0)
    {
      this.sets, version := sets, 0;
    }

    function View(): State
      reads this
    {
      State(sets, version)
    }

    /** _bump_catalog_version_strict. */
    method BumpStrict(b: Bumps) returns (ok: bool)
      modifies this`version
      ensures version == old(version) + Raise(b)
      ensures ok == SomeWorks(b)
    {
      var attempts := [b.first, b.second, b.third];
      var i := 0;
      ok := false;
      while i < 3 && !ok
        invariant 0 <= i <= 3
        invariant ok <==> 0 < i && attempts[i - 1] == Works
        invariant forall k :: 0 <= k < i - 1 ==> attempts[k] != Works
        invariant version == old(version)
          + (if i > 0 then Applied(attempts[0]) else 0)
          + (if i > 1 then Applied(attempts[1]) else 0)
          + (if i > 2 then Applied(attempts[2]) else 0)
      {
        version := version + Applied(attempts[i]);
        ok := attempts[i] == Works;
        i := i + 1;
      }
    }

    /** _after_question_bank_mutation. */
    method AfterMutation(visible: bool, b: Bumps) returns (r: Outcome)
      modifies this`version
      ensures (View(), r) == Finished(State(sets, old(version)), visible, false, b)
    {
      r := Done;
      if visible {
        var ok := BumpStrict(b);
        if !ok {
          r := Raised;
        }
      }
    }

    method CreateSet(id: Id, skill: Skill, titled: bool, status: Status, m: Option<ExamModule>) returns (r: Outcome)
      modifies this
      ensures (View(), r) == Apply(old(View()), Create(id, skill, titled, status, m))
    {
      if !titled || (skill == Writing && m.None?) || (skill != Writing && m.Some?) || status == Published || id in sets {
        return Refused;
      }
      sets := sets[id := PracticeSet(skill, status, true, m, [], "", "")];
      r := Done;
    }

    method PatchStatus(id: Id, next: Status, path: Path) returns (r: Outcome)
      modifies this
      ensures (View(), r) == Apply(old(View()), SetStatus(id, next, path))
    {
      hide Blockers;
      if id !in sets {
        return Refused;
      }
      var ps := sets[id];
      if next == Published {
        var blockers := PublishBlockers(ps.skill, ps.m, ps.sections);
        if blockers != [] {
          return Refused;
        }
      }
      match path
      case Broken => return Raised;
      case InTransaction(cut) =>
        sets := sets[id := ps.(status := next)];
        version := version + if (next == Published) != (ps.status == Published) then 1 else 0;
        r := if cut then Raised else Done;
      case Fallback(cut, bumps) =>
        sets := sets[id := ps.(status := next)];
        if cut {
          return Raised;
        }
        r := AfterMutation(StudentVisibleChange(ps.status, next), bumps);
    }

    /** The writes of a save, one after the other; an exception stops them. */
    method WriteSection(id: Id, section: Section, halt: Halt) returns (halted: bool)
      requires id in sets
      modifies this`sets
      ensures sets == old(sets)[id := old(sets)[id].(sections := Written(old(sets)[id].sections, section, halt))]
      ensures halted == (halt != NoHalt)
    {
      hide WithSection;
      var ps := sets[id];
      if halt == BeforeSection {
        assert ps.(sections := ps.sections) == ps;
        return true;
      }
      var kept := QuestionsOf(ps.sections, section.part);
      sets := sets[id := ps.(sections := WithSection(ps.sections, section.(questions := kept)))];
      if halt == AfterSection {
        return true;
      }
      sets := sets[id := ps.(sections := WithSection(ps.sections, section.(questions := [])))];
      if halt == AfterDelete {
        return true;
      }
      sets := sets[id := ps.(sections := WithSection(ps.sections, section))];
      halted := halt == AfterWrites;
    }

    method SaveContent(id: Id, skill: Skill, section: Section, halt: Halt, b: Bumps) returns (r: Outcome)
      modifies this
      ensures (View(), r) == Apply(old(View()), Save(id, skill, section, halt, b))
    {
      hide MaySave, Written;
      if id !in sets || sets[id].skill != skill || !MaySave(skill, section) {
        return Refused;
      }
      var halted := WriteSection(id, section, halt);
      if halted {
        return Raised;
      }
      r := AfterMutation(sets[id].status == Published, b);
    }

    /** The module is written before the task type is checked against it. */
    method SaveTask(id: Id, part: int, prompt: string, task: Option<Task>, m: Option<ExamModule>, halt: Halt, b: Bumps)
      returns (r: Outcome)
      modifies this
      ensures (View(), r) == Apply(old(View()), SaveWriting(id, part, prompt, task, m, halt, b))
    {
      if id !in sets || sets[id].skill != Writing || part < 1 || part > MaxPart(Writing) || IsBlank(prompt) {
        return Refused;
      }
      hide Fits, TaskFor, WithSection, WritingSection, IsBlank, Written;
      var kind := TaskFor(part, task);
      if kind.None? {
        return Refused;
      }
      var ps := sets[id].(m := ModuleAfter(sets[id], m));
      sets := sets[id := ps];
      if halt != BeforeSection && (ps.m.None? || !Fits(kind.value, ps.m.value)) {
        return Refused;
      }
      var halted := WriteSection(id, WritingSection(part, prompt, kind.value), halt);
      assert sets == old(sets)[id := sets[id]];
      if halted {
        return Raised;
      }
      r := AfterMutation(ps.status == Published, b);
    }

    method PatchExamModule(id: Id, m: Option<ExamModule>, cut: bool, b: Bumps) returns (r: Outcome)
      modifies this
      ensures (View(), r) == Apply(old(View()), PatchModule(id, m, cut, b))
    {
      hide TasksFit;
      if id !in sets || m.None? || sets[id].skill != Writing || !TasksFit(sets[id].sections, m.value) {
        return Refused;
      }
      sets := sets[id := sets[id].(m := m)];
      if cut {
        return Raised;
      }
      r := AfterMutation(sets[id].status == Published, b);
    }

    method DeleteSet(id: Id, referenced: bool, cut: bool, b: Bumps) returns (r: Outcome)
      modifies this
      ensures (View(), r) == Apply(old(View()), Delete(id, referenced, cut, b))
    {
      if id !in sets || !sets[id].custom || referenced {
        return Refused;
      }
      var visible := sets[id].status == Published;
      sets := sets - {id};
      if cut {
        return Raised;
      }
      r := AfterMutation(visible, b);
    }

    /** set_intro_stream_uid and set_intro_video_key: what raising the version raises is swallowed. */
    method SaveIntro(id: Id, isStream: bool, key: string, cut: bool, b: Bumps) returns (r: Outcome)
      modifies this
      ensures (View(), r) == Apply(old(View()), SetIntro(id, isStream, key, cut, b))
    {
      if IsBlank(key) || id !in sets {
        return Refused;
      }
      sets := sets[id := WithIntro(sets[id], isStream, key)];
      if cut {
        return Raised;
      }
      var ignored := AfterMutation(sets[id].status == Published, b);
      r := Done;
    }
  }

  // ---------------------------------------------------------------------------------------
  // What students see

  datatype Content = Content(m: Option<ExamModule>, sections: seq<Section>, video: string, stream: string)

  function ContentOf(ps: PracticeSet): Content { Content(ps.m, ps.sections, ps.video, ps.stream) }

  /** The published sets with their content. */
  function Shown(sets: map<Id, PracticeSet>): map<Id, Content> {
    map id | id in sets && sets[id].status == Published :: ContentOf(sets[id])
  }

  function ShownAt(sets: map<Id, PracticeSet>, id: Id): Option<Content> {
    if id in sets && sets[id].status == Published then Some(ContentOf(sets[id])) else None
  }

  lemma ShownAtAll(before: map<Id, PracticeSet>, after: map<Id, PracticeSet>, id: Id)
    requires forall k :: k != id ==> ShownAt(before, k) == ShownAt(after, k)
    ensures Shown(before) == Shown(after) <==> ShownAt(before, id) == ShownAt(after, id)
  {
    if Shown(before) == Shown(after) {
      assert id in Shown(before) <==> id in Shown(after);
    }
    if ShownAt(before, id) == ShownAt(after, id) {
      forall k ensures k in Shown(before) <==> k in Shown(after) {
        assert ShownAt(before, k) == ShownAt(after, k);
      }
      forall k | k in Shown(before) ensures Shown(before)[k] == Shown(after)[k] {
        assert ShownAt(before, k) == ShownAt(after, k);
      }
    }
  }

  lemma UpdateShows(sets: map<Id, PracticeSet>, id: Id, ps: PracticeSet)
    ensures Shown(sets) == Shown(sets[id := ps]) <==> ShownAt(sets, id) == ShownAt(sets[id := ps], id)
  {
    ShownAtAll(sets, sets[id := ps], id);
  }

  lemma RemovalShows(sets: map<Id, PracticeSet>, id: Id)
    ensures Shown(sets) == Shown(sets - {id}) <==> ShownAt(sets, id) == None
  {
    ShownAtAll(sets, sets - {id}, id);
  }

  /** The version is not raised after a write that students can see. */
  predicate Unraised(halted: bool, b: Bumps) { halted || AllFail(b) }

  /** When what students see changes and the version stays, told from the operation and the state
      before it: an exception came between the write and the version, or every try to raise the
      version failed, or a writing save was refused because its task type does not go with the
      exam module that it had already changed. */
  predicate Slips(state: State, op: Op) {
    op.id in state.sets &&
    var ps := state.sets[op.id];
    match op
    case Create(_, _, _, _, _) => false
    case SetStatus(_, next, path) =>
      && StudentVisibleChange(ps.status, next) && path.Fallback? && Unraised(path.cut, path.bumps)
      && (next == Published ==> Blockers(ps.skill, ps.m, ps.sections) == [])
    case Save(_, skill, section, halt, bumps) =>
      && ps.status == Published && ps.skill == skill && MaySave(skill, section)
      && Written(ps.sections, section, halt) != ps.sections && Unraised(halt != NoHalt, bumps)
    case SaveWriting(_, part, prompt, task, m, halt, bumps) =>
      && ps.status == Published && MayWrite(ps, op)
      && (var (type', after) := (TaskFor(part, task).value, ModuleAfter(ps, m));
          if halt == BeforeSection || after.None? || !Fits(type', after.value) then after != ps.m
          else
            && Unraised(halt != NoHalt, bumps)
            && (after != ps.m || Written(ps.sections, WritingSection(part, prompt, type'), halt) != ps.sections))
    case PatchModule(_, m, cut, bumps) => ps.status == Published && MayPatch(ps, m) && m != ps.m && Unraised(cut, bumps)
    case Delete(_, referenced, cut, bumps) => ps.status == Published && ps.custom && !referenced && Unraised(cut, bumps)
    case SetIntro(_, isStream, key, cut, bumps) =>
      ps.status == Published && !IsBlank(key) && WithIntro(ps, isStream, key) != ps && Unraised(cut, bumps)
  }

  lemma FinishedShows(state: State, sets: map<Id, PracticeSet>, visible: bool, halted: bool, b: Bumps)
    ensures var after := Finished(state.(sets := sets), visible, halted, b).0;
            && after.sets == sets && after.version >= state.version
            && (after.version == state.version <==> !visible || Unraised(halted, b))
  {
  }

  /** The version never falls, and it stays while what students see changes exactly when the
      operation slips. */
  predicate IsNoticed(state: State, op: Op) {
    var after := Apply(state, op).0;
    && after.version >= state.version
    && (Shown(after.sets) != Shown(state.sets) && after.version == state.version <==> Slips(state, op))
  }

  /** One step, whatever is raised where. */
  lemma {:induction false} StepIsNoticed(state: State, op: Op)
    ensures IsNoticed(state, op)
  {
    hide Shown, Raise, SomeWorks, Finished, MaySave, MayPatch, Written, Unraised;
    hide TaskFor, WritingSection, Fits, Blockers, IsBlank;
    match op
    case Create(id, skill, titled, status, m) =>
      UpdateShows(state.sets, id, PracticeSet(skill, status, true, m, [], "", ""));
    case SetStatus(id, next, path) => StatusIsNoticed(state, op);
    case Save(id, skill, section, halt, bumps) =>
      if id in state.sets {
        var ps := state.sets[id];
        var full := ps.(sections := Written(ps.sections, section, halt));
        UpdateShows(state.sets, id, full);
        FinishedShows(state, state.sets[id := full], ps.status == Published, halt != NoHalt, bumps);
      }
    case SaveWriting(id, part, prompt, task, m, halt, bumps) => WritingIsNoticed(state, op);
    case PatchModule(id, m, cut, bumps) =>
      if id in state.sets {
        var ps := state.sets[id];
        UpdateShows(state.sets, id, ps.(m := m));
        FinishedShows(state, state.sets[id := ps.(m := m)], ps.status == Published, cut, bumps);
      }
    case Delete(id, referenced, cut, bumps) =>
      if id in state.sets {
        RemovalShows(state.sets, id);
        FinishedShows(state, state.sets - {id}, state.sets[id].status == Published, cut, bumps);
      }
    case SetIntro(id, isStream, key, cut, bumps) =>
      if id in state.sets {
        var ps := state.sets[id];
        UpdateShows(state.sets, id, WithIntro(ps, isStream, key));
        FinishedShows(state, state.sets[id := WithIntro(ps, isStream, key)], ps.status == Published, cut, bumps);
      }
  }

  lemma {:induction false} StatusIsNoticed(state: State, op: Op)
    requires op.SetStatus?
    ensures IsNoticed(state, op)
  {
    hide Shown, Raise, SomeWorks, Finished, Blockers, Unraised;
    if op.id in state.sets {
      var ps := state.sets[op.id].(status := op.next);
      UpdateShows(state.sets, op.id, ps);
      if op.path.Fallback? {
        var visible := StudentVisibleChange(state.sets[op.id].status, op.next);
        FinishedShows(state, state.sets[op.id := ps], visible, op.path.cut, op.path.bumps);
      }
    }
  }

  lemma {:induction false} WritingIsNoticed(state: State, op: Op)
    requires op.SaveWriting?
    ensures IsNoticed(state, op)
  {
    hide Shown, Raise, AllFail, SomeWorks, Finished, TaskFor, Written, WritingSection, Fits, IsBlank;
    if op.id in state.sets && MayWrite(state.sets[op.id], op) {
      var ps := state.sets[op.id].(m := ModuleAfter(state.sets[op.id], op.m));
      UpdateShows(state.sets, op.id, ps);
      var kind := TaskFor(op.part, op.task).value;
      var full := ps.(sections := Written(ps.sections, WritingSection(op.part, op.prompt, kind), op.halt));
      UpdateShows(state.sets, op.id, full);
      FinishedShows(state, state.sets[op.id := full], ps.status == Published, op.halt != NoHalt, op.bumps);
      NothingWritten(ps.sections, WritingSection(op.part, op.prompt, kind), op.halt);
      assert op.halt == BeforeSection ==> full == ps;
    }
  }

  lemma NothingWritten(sections: seq<Section>, s: Section, halt: Halt)
    ensures halt == BeforeSection ==> Written(sections, s, halt) == sections
  {
  }

  /** An operation that reports success never slips, unless it saves an intro; one that is
      refused slips only as a writing save. */
  lemma {:induction false} SuccessIsNoticed(state: State, op: Op)
    ensures Apply(state, op).1 == Done && !op.SetIntro? ==> !Slips(state, op)
    ensures Apply(state, op).1 == Refused && !op.SaveWriting? ==> !Slips(state, op) && Apply(state, op).0 == state
  {
  }

  function Run(state: State, ops: seq<Op>): State {
    if ops == [] then state else Apply(Run(state, ops[..|ops| - 1]), ops[|ops| - 1]).0
  }

  predicate NoneSlips(state: State, ops: seq<Op>) {
    forall k :: 0 <= k < |ops| ==> !Slips(Run(state, ops[..k]), ops[k])
  }

  /** Over every run in which no step slips, the version never falls, and it has risen whenever
      students see something else at the end than at the start. */
  lemma {:induction false} RunIsNoticed(state: State, ops: seq<Op>)
    requires NoneSlips(state, ops)
    ensures Run(state, ops).version >= state.version
    ensures Shown(Run(state, ops).sets) != Shown(state.sets) ==> Run(state, ops).version > state.version
  {
    hide Shown, Slips, Apply;
    if ops != [] {
      var init := ops[..|ops| - 1];
      forall k | 0 <= k < |init| ensures !Slips(Run(state, init[..k]), init[k]) {
        assert init[..k] == ops[..k];
      }
      RunIsNoticed(state, init);
      StepIsNoticed(Run(state, init), ops[|ops| - 1]);
    }
  }

  /** A step that reports success, or a refusal that wrote nothing; an intro save also raised the
      version if it had to. */
  predicate WentWell(state: State, op: Op) {
    match Apply(state, op).1
    case Done => op.SetIntro? ==> !AllFail(op.bumps)
    case Refused => !op.SaveWriting?
    case Raised => false
  }

  /** So over every run whose operations went well, the version has risen whenever students see
      something else at the end than at the start. */
  lemma {:induction false} GoodRunIsNoticed(state: State, ops: seq<Op>)
    requires forall k :: 0 <= k < |ops| ==> WentWell(Run(state, ops[..k]), ops[k])
    ensures Run(state, ops).version >= state.version
    ensures Shown(Run(state, ops).sets) != Shown(state.sets) ==> Run(state, ops).version > state.version
  {
    hide Shown, Slips, Apply;
    forall k | 0 <= k < |ops| ensures !Slips(Run(state, ops[..k]), ops[k]) {
      GoodIsNoticed(Run(state, ops[..k]), ops[k]);
    }
    RunIsNoticed(state, ops);
  }

  lemma {:induction false} GoodIsNoticed(state: State, op: Op)
    requires WentWell(state, op)
    ensures !Slips(state, op)
  {
  }

  /** A step that publishes a set found it without blockers and left its content alone, so it is
      complete, or a speaking set with a question object that lacks a video. */
  lemma PublishedWasComplete(state: State, op: Op, id: Id)
    requires var after := Apply(state, op).0;
             id in after.sets && after.sets[id].status == Published
             && (id !in state.sets || state.sets[id].status != Published)
    ensures id in state.sets
    ensures var (ps, after) := (state.sets[id], Apply(state, op).0.sets[id]);
            && after == ps.(status := Published)
            && (Complete(ps.skill, ps.m, ps.sections) || (ps.skill == Speaking && HasVideolessObject(ps.sections)))
  {
    hide Blockers, Complete, HasVideolessObject, WithSection, WritingSection, TaskFor, Fits, MaySave, MayPatch;
    if id in state.sets {
      GateIsExact(state.sets[id].skill, state.sets[id].m, state.sets[id].sections);
    }
  }

  /** And one that is refused for blockers changes nothing. */
  lemma BlockedChangesNothing(state: State, id: Id, path: Path)
    requires id in state.sets
    requires !Complete(state.sets[id].skill, state.sets[id].m, state.sets[id].sections)
    requires state.sets[id].skill == Speaking ==> !HasVideolessObject(state.sets[id].sections)
    ensures Apply(state, SetStatus(id, Published, path)) == (state, Refused)
  {
    hide Blockers, Complete, HasVideolessObject;
    GateIsExact(state.sets[id].skill, state.sets[id].m, state.sets[id].sections);
  }

  // ---------------------------------------------------------------------------------------
  // Runs from an empty catalogue

  const EMPTY := State(map[], 0)
  const ALL_WORK := Bumps(Works, Works, Works)
  const ALL_FAIL := Bumps(Fails, Fails, Fails)

  lemma {:induction false} RunOneMore(state: State, ops: seq<Op>, op: Op)
    ensures Run(state, ops + [op]) == Apply(Run(state, ops), op).0
  {
  }

  /** A writing set is created, filled and published. */
  lemma {:induction false} WritingIsPublished() returns (ops: seq<Op>)
    ensures var (s, full) := (Run(EMPTY, ops), WithSection([], WritingSection(1, "x", Task1Academic)));
            s.sets == map["s" := PracticeSet(Writing, Published, true, Some(Academic), full, "", "")]
  {
    hide Apply, WithSection, WritingSection;
    var a := Create("s", Writing, true, Draft, Some(Academic));
    var b := SaveWriting("s", 1, "x", Some(Task1Academic), None, NoHalt, ALL_WORK);
    var c := SetStatus("s", Published, InTransaction(false));
    ops := [a, b, c];
    assert [] + [a] == [a] && [a] + [b] == [a, b] && [a, b] + [c] == ops;
    RunOneMore(EMPTY, [], a);
    RunOneMore(EMPTY, [a], b);
    RunOneMore(EMPTY, [a, b], c);
    WritingSteps(a, b, c);
  }

  lemma {:induction false} WritingSteps(a: Op, b: Op, c: Op)
    requires a == Create("s", Writing, true, Draft, Some(Academic))
    requires b == SaveWriting("s", 1, "x", Some(Task1Academic), None, NoHalt, ALL_WORK)
    requires c == SetStatus("s", Published, InTransaction(false))
    ensures Apply(Apply(Apply(EMPTY, a).0, b).0, c).0.sets
         == map["s" := PracticeSet(Writing, Published, true, Some(Academic),
                                   WithSection([], WritingSection(1, "x", Task1Academic)), "", "")]
  {
    hide Blockers, WithSection, WritingSection, Complete;
    assert !IsBlank("x");
    var sections := WithSection([], WritingSection(1, "x", Task1Academic));
    WritingIsComplete(sections);
    GateIsExact(Writing, Some(Academic), sections);
    var s1 := Apply(EMPTY, a).0;
    assert s1.sets == map["s" := PracticeSet(Writing, Draft, true, Some(Academic), [], "", "")];
    var s2 := Apply(s1, b).0;
    assert s2.sets == map["s" := PracticeSet(Writing, Draft, true, Some(Academic), sections, "", "")];
  }

  lemma WritingIsComplete(sections: seq<Section>)
    requires sections == WithSection([], WritingSection(1, "x", Task1Academic))
    ensures Complete(Writing, Some(Academic), sections)
  {
    assert sections == [WritingSection(1, "x", Task1Academic)];
    assert !IsBlank("x") && Text.Strip("x") == "x";
    assert !IsBlank(sections[0].passage);
  }

  /** From an empty catalogue: a refused writing save changes what students see, without a new
      version, though every try to raise it would have worked. */
  lemma {:induction false} RefusedSaveShows() returns (ops: seq<Op>, op: Op)
    ensures op.SaveWriting? && op.halt == NoHalt && op.bumps == ALL_WORK
    ensures var (before, (after, r)) := (Run(EMPTY, ops), Apply(Run(EMPTY, ops), op));
            r == Refused && Shown(after.sets) != Shown(before.sets) && after.version == before.version
  {
    hide WithSection, WritingSection, Shown, Raise, Run;
    ops := WritingIsPublished();
    op := SaveWriting("s", 1, "x", Some(Task1Academic), Some(General), NoHalt, ALL_WORK);
    assert !IsBlank("x");
    StepIsNoticed(Run(EMPTY, ops), op);
  }

  /** And a save of an intro reports success while every try to raise the version fails. */
  lemma {:induction false} IntroSlips() returns (ops: seq<Op>, op: Op)
    ensures op.SetIntro?
    ensures var (before, (after, r)) := (Run(EMPTY, ops), Apply(Run(EMPTY, ops), op));
            r == Done && Shown(after.sets) != Shown(before.sets) && after.version == before.version
  {
    hide WithSection, WritingSection, Shown, Run;
    ops := WritingIsPublished();
    op := SetIntro("s", false, "x", false, ALL_FAIL);
    assert !IsBlank("x") && Text.Strip("x") == "x";
    StepIsNoticed(Run(EMPTY, ops), op);
  }

  /** A speaking set whose one question has neither prompt nor video is created, filled through
      its builder and published. */
  lemma {:induction false} EmptySpeakingIsPublished() returns (ops: seq<Op>)
    ensures var s := Run(EMPTY, ops);
            && "s" in s.sets && s.sets["s"].status == Published
            && !Complete(s.sets["s"].skill, s.sets["s"].m, s.sets["s"].sections)
  {
    hide Apply, Complete;
    var sections := [Section(1, "", "", [Question("", "", "", "", Object(None), NoTask)])];
    var a := Create("s", Speaking, true, Draft, None);
    var b := Save("s", Speaking, sections[0], NoHalt, ALL_WORK);
    var c := SetStatus("s", Published, InTransaction(false));
    ops := [a, b, c];
    assert [] + [a] == [a] && [a] + [b] == [a, b] && [a, b] + [c] == ops;
    RunOneMore(EMPTY, [], a);
    RunOneMore(EMPTY, [a], b);
    RunOneMore(EMPTY, [a, b], c);
    SpeakingSteps(sections, a, b, c);
    EmptySpeakingPasses();
  }

  lemma {:induction false} SpeakingSteps(sections: seq<Section>, a: Op, b: Op, c: Op)
    requires sections == [Section(1, "", "", [Question("", "", "", "", Object(None), NoTask)])]
    requires a == Create("s", Speaking, true, Draft, None)
    requires b == Save("s", Speaking, sections[0], NoHalt, ALL_WORK)
    requires c == SetStatus("s", Published, InTransaction(false))
    ensures Apply(Apply(Apply(EMPTY, a).0, b).0, c).0.sets
         == map["s" := PracticeSet(Speaking, Published, true, None, sections, "", "")]
  {
    hide Blockers, Complete;
    EmptySpeakingPasses();
    assert WithSection([], sections[0]) == sections;
    var s1 := Apply(EMPTY, a).0;
    assert s1.sets == map["s" := PracticeSet(Speaking, Draft, true, None, [], "", "")];
    var s2 := Apply(s1, b).0;
    assert s2.sets == map["s" := PracticeSet(Speaking, Draft, true, None, sections, "", "")];
  }
}
