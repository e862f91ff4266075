/** patch_question of app/admin/questions.py: an edit that passes the checks first stores the
    question as it was, under the next version number, then updates the question and then writes
    an audit entry, in three separate calls that an exception may separate. */
module VersionHistory {
  import opened Wrappers
  import Text

  type Id = string

  /** The columns that a version keeps and an edit may change. */
  datatype Column = Prompt | Options | Answer | Explanation | Passage | Kind | Number | Part | Skill
  /** An element of stored options: an object, or anything else. */
  datatype Item = Labelled(mark: string, text: string) | NoObject
  /** `Odd` is any other JSON value that is not empty. */
  datatype Value = Null | Str(text: string) | Int(number: int) | Items(items: seq<Item>) | Odd
  type Content = map<Column, Value>

  /** Object options as a request gives them; a key left out is an empty text. */
  datatype RawOption = RawOption(mark: string, letter: string, text: string)
  datatype Request = Request(
    prompt: Option<string>, options: Option<seq<RawOption>>, answer: Option<string>, explanation: Option<string>,
    kind: Option<string>, number: Option<int>, part: Option<int>, passage: Option<string>, skill: Option<string>)

  /** `slug` is to_slug, and `upper` is str.upper. */
  datatype Spelling = Spelling(slug: string -> string, upper: string -> string)

  datatype Fault = NotFound | TooFew | NoLabel | NoText(mark: string) | Duplicate(mark: string) | NotALabel

  /** Where an exception ends an edit that passed the checks: before its version is stored, before
      its update is made, before its audit entry is written, or after all three. A write whose reply
      is lost counts as made. */
  datatype Halt = NoHalt | BeforeVersion | BeforeUpdate | BeforeAudit | AfterAudit
  datatype Outcome = Done(version: int) | Rejected(fault: Fault) | Raised

  datatype Version = Version(question: Id, version: int, content: Content, admin: Id)
  datatype Audit = Audit(question: Id, version: int, columns: set<Column>, admin: Id)
  datatype Store = Store(questions: map<Id, Content>, versions: seq<Version>, audits: seq<Audit>)

  // ---------------------------------------------------------------------------------------
  // Options

  function Mark(raw: RawOption): string { Text.Strip(if raw.mark != "" then raw.mark else raw.letter) }

  function Cleaned(raw: seq<RawOption>): (r: seq<Item>)
    ensures |r| == |raw| && forall i :: 0 <= i < |raw| ==> r[i] == Labelled(Mark(raw[i]), Text.Strip(raw[i].text))
  {
    seq(|raw|, i requires 0 <= i < |raw| => Labelled(Mark(raw[i]), Text.Strip(raw[i].text)))
  }

  predicate IsFilled(raw: RawOption) { Mark(raw) != "" && Text.Strip(raw.text) != "" }

  /** At least two, each with a label and a text, and no two labels alike in upper case. */
  predicate AreOptions(raw: seq<RawOption>, upper: string -> string) {
    && |raw| >= 2
    && (forall i :: 0 <= i < |raw| ==> IsFilled(raw[i]))
    && forall i, j :: 0 <= i < j < |raw| ==> upper(Mark(raw[i])) != upper(Mark(raw[j]))
  }

  /** What is wrong with option i when those before it are in order. */
  function OptionFault(raw: seq<RawOption>, i: nat, upper: string -> string): Option<Fault>
    requires i < |raw|
  {
    if Mark(raw[i]) == "" then Some(NoLabel)
    else if Text.Strip(raw[i].text) == "" then Some(NoText(Mark(raw[i])))
    else if exists j :: 0 <= j < i && upper(Mark(raw[j])) == upper(Mark(raw[i]))
    then Some(Duplicate(Mark(raw[i])))
    else None
  }

  function FirstFault(raw: seq<RawOption>, i: nat, upper: string -> string): Option<Fault>
    requires i <= |raw|
    decreases |raw| - i
  {
    if i == |raw| then None
    else if OptionFault(raw, i, upper).Some? then OptionFault(raw, i, upper)
    else FirstFault(raw, i + 1, upper)
  }

  function OptionsFault(raw: seq<RawOption>, upper: string -> string): Option<Fault> {
    if |raw| < 2 then Some(TooFew) else FirstFault(raw, 0, upper)
  }

  lemma {:induction false} FirstFaultIsNone(raw: seq<RawOption>, i: nat, upper: string -> string)
    requires i <= |raw|
    ensures FirstFault(raw, i, upper) == None <==> forall k :: i <= k < |raw| ==> OptionFault(raw, k, upper) == None
    decreases |raw| - i
  {
    hide OptionFault;
    if i < |raw| {
      FirstFaultIsNone(raw, i + 1, upper);
    }
  }

  lemma OptionsFaultIsNone(raw: seq<RawOption>, upper: string -> string)
    ensures OptionsFault(raw, upper) == None <==> AreOptions(raw, upper)
  {
    FirstFaultIsNone(raw, 0, upper);
    if |raw| >= 2 && FirstFault(raw, 0, upper) == None {
      forall i | 0 <= i < |raw| ensures IsFilled(raw[i]) {
        assert OptionFault(raw, i, upper) == None;
      }
      forall i, j | 0 <= i < j < |raw|
        ensures upper(Mark(raw[i])) != upper(Mark(raw[j]))
      {
        assert OptionFault(raw, j, upper) == None;
      }
    }
    if AreOptions(raw, upper) {
      forall k | 0 <= k < |raw| ensures OptionFault(raw, k, upper) == None {
        assert IsFilled(raw[k]);
      }
    }
  }

  /** _normalize_options_payload. */
  method NormalizeOptions(raw: seq<RawOption>, upper: string -> string) returns (r: Result<seq<Item>, Fault>)
    ensures r.Ok? <==> AreOptions(raw, upper)
    ensures r == if OptionsFault(raw, upper).Some? then Err(OptionsFault(raw, upper).value) else Ok(Cleaned(raw))
  {
    hide AreOptions, Mark, Text.Strip;
    OptionsFaultIsNone(raw, upper);
    if |raw| < 2 {
      return Err(TooFew);
    }
    var normalized: seq<Item> := [];
    var seen: set<string> := {};
    for i := 0 to |raw|
      invariant FirstFault(raw, 0, upper) == FirstFault(raw, i, upper)
      invariant |normalized| == i
      invariant forall k :: 0 <= k < i ==> normalized[k] == Labelled(Mark(raw[k]), Text.Strip(raw[k].text))
      invariant forall key :: key in seen <==> exists k :: 0 <= k < i && upper(Mark(raw[k])) == key
    {
      var mark := Mark(raw[i]);
      var text := Text.Strip(raw[i].text);
      if mark == "" {
        return Err(NoLabel);
      }
      if text == "" {
        return Err(NoText(mark));
      }
      if upper(mark) in seen {
        return Err(Duplicate(mark));
      }
      seen := seen + {upper(mark)};
      normalized := normalized + [Labelled(mark, text)];
    }
    assert normalized == Cleaned(raw);
    r := Ok(normalized);
  }

  // ---------------------------------------------------------------------------------------
  // One edit

  function AsText(given: Option<string>): Option<Value> {
    if given.Some? then Some(Str(given.value)) else None
  }

  function AsInt(given: Option<int>): Option<Value> {
    if given.Some? then Some(Int(given.value)) else None
  }

  /** What an edit gives for a column. */
  function Given(body: Request, sp: Spelling, c: Column): Option<Value> {
    match c
    case Prompt => AsText(body.prompt)
    case Options => if body.options.Some? then Some(Items(Cleaned(body.options.value))) else None
    case Answer => AsText(body.answer)
    case Explanation => AsText(body.explanation)
    case Passage => AsText(body.passage)
    case Kind => if body.kind.Some? then Some(Str(sp.slug(body.kind.value))) else None
    case Number => AsInt(body.number)
    case Part => AsInt(body.part)
    case Skill => AsText(body.skill)
  }

  /** The columns an edit writes. */
  function Updates(body: Request, sp: Spelling): (r: Content)
    ensures forall c: Column :: c in r <==> Given(body, sp, c).Some?
    ensures forall c: Column :: c in r ==> r[c] == Given(body, sp, c).value
  {
    map c: Column | Given(body, sp, c).Some? :: Given(body, sp, c).value
  }

  function Put(updates: Content, c: Column, value: Option<Value>): Content {
    if value.Some? then updates[c := value.value] else updates
  }

  /** One column after the other. */
  function PutAll(body: Request, sp: Spelling): Content {
    PutRest(PutFirst(body, sp), body, sp)
  }

  function PutFirst(body: Request, sp: Spelling): (r: Content) {
    var given := c => Given(body, sp, c);
    Put(Put(Put(Put(map[], Prompt, given(Prompt)), Options, given(Options)), Answer, given(Answer)),
        Explanation, given(Explanation))
  }

  function PutRest(first: Content, body: Request, sp: Spelling): (r: Content) {
    var given := c => Given(body, sp, c);
    Put(Put(Put(Put(Put(first, Kind, given(Kind)), Number, given(Number)), Part, given(Part)),
            Passage, given(Passage)), Skill, given(Skill))
  }

  lemma PutFirstAt(body: Request, sp: Spelling, c: Column)
    ensures Has(PutFirst(body, sp), c, if c in {Prompt, Options, Answer, Explanation} then Given(body, sp, c) else None)
  {
  }

  lemma PutRestAt(first: Content, body: Request, sp: Spelling, c: Column, v: Option<Value>)
    requires Has(first, c, v)
    ensures Has(PutRest(first, body, sp), c,
                if c in {Kind, Number, Part, Passage, Skill} && Given(body, sp, c).Some? then Given(body, sp, c) else v)
  {
  }

  predicate Has(content: Content, c: Column, v: Option<Value>) {
    if v.Some? then c in content && content[c] == v.value else c !in content
  }

  lemma PutAllIsUpdates(body: Request, sp: Spelling)
    ensures PutAll(body, sp) == Updates(body, sp)
  {
    hide Given, PutFirst, PutRest;
    forall c: Column ensures Has(PutAll(body, sp), c, Given(body, sp, c)) {
      match c { case Prompt | Options | Answer | Explanation => case Kind | Number | Part | Passage | Skill => }
      PutFirstAt(body, sp, c);
      PutRestAt(PutFirst(body, sp), body, sp, c,
                if c in {Prompt, Options, Answer, Explanation} then Given(body, sp, c) else None);
    }
    forall c: Column ensures c in PutAll(body, sp) <==> c in Updates(body, sp) {
      assert Has(PutAll(body, sp), c, Given(body, sp, c));
    }
  }

  function At(content: Content, c: Column): Value { if c in content then content[c] else Null }

  /** All nine columns, missing ones as null. */
  function Snapshot(content: Content): (r: Content)
    ensures forall c: Column :: c in r && r[c] == At(content, c)
  {
    map c: Column | true :: At(content, c)
  }

  function Labels(items: seq<Item>): set<string> {
    set i | 0 <= i < |items| && items[i].Labelled? :: Text.Strip(items[i].mark)
  }

  /** The answer is null or blank, or there are no options, or it is the label of one. The answer
      column holds a text or null. */
  predicate AnswerFits(content: Content) {
    var (options, answer) := (At(content, Options), At(content, Answer));
    var labels := if options.Items? then Labels(options.items) else {};
    (options == Null || options == Items([]) || !answer.Str?)
    || Text.Strip(answer.text) == "" || Text.Strip(answer.text) in labels
  }

  function EditFault(store: Store, id: Id, body: Request, sp: Spelling): Option<Fault> {
    if id !in store.questions then Some(NotFound)
    else if body.options.Some? && OptionsFault(body.options.value, sp.upper).Some? then OptionsFault(body.options.value, sp.upper)
    else if !AnswerFits(store.questions[id] + Updates(body, sp)) then Some(NotALabel)
    else None
  }

  function MaxVersion(versions: seq<Version>, id: Id): int {
    if versions == [] then 0
    else
      var (rest, last) := (MaxVersion(versions[..|versions| - 1], id), versions[|versions| - 1]);
      if last.question == id && last.version > rest then last.version else rest
  }

  // ---------------------------------------------------------------------------------------
  // What the table takes

  /** `varchar(40)`, the type of the question_type and skill_tag columns. */
  const WIDTH := 40

  /** Spaces beyond the width are cut off, anything else beyond it is refused. */
  predicate IsNarrow(s: string) { |s| <= WIDTH || forall i :: WIDTH <= i < |s| ==> s[i] == ' ' }

  function Narrowed(s: string): string { if |s| <= WIDTH then s else s[..WIDTH] }

  predicate IsText(s: string) { '\0' !in s }

  predicate CanStore(c: Column, v: Value) {
    match v
    case Str(text) => IsText(text) && (c in {Kind, Skill} ==> IsNarrow(text))
    case Int(n) => if c == Part then 1 <= n <= 4 else -0x8000_0000 <= n < 0x8000_0000
    case Items(items) =>
      forall i :: 0 <= i < |items| && items[i].Labelled? ==> IsText(items[i].mark) && IsText(items[i].text)
    case _ => true
  }

  predicate IsStorable(updates: Content) { forall c :: c in updates ==> CanStore(c, updates[c]) }

  function Stored(updates: Content): (r: Content)
    ensures r.Keys == updates.Keys
    ensures forall c :: c in updates && c != Kind && c != Skill ==> r[c] == updates[c]
  {
    map c | c in updates ::
      if c in {Kind, Skill} && updates[c].Str? then Str(Narrowed(updates[c].text)) else updates[c]
  }

  // ---------------------------------------------------------------------------------------
  // One edit, with its three writes

  datatype Call = Call(id: Id, body: Request, admin: Id, halt: Halt)

  /** Where the edit ends: values that the table refuses end it before the update, if there is one. */
  function StopOf(call: Call, sp: Spelling): Halt {
    var updates := Updates(call.body, sp);
    if call.halt == BeforeVersion then BeforeVersion
    else if updates != map[] && !IsStorable(updates) then BeforeUpdate
    else call.halt
  }

  /** The edit passes the checks and stores a version. */
  predicate IsAttempt(store: Store, call: Call, sp: Spelling) {
    EditFault(store, call.id, call.body, sp).None? && StopOf(call, sp) != BeforeVersion
  }

  /** And an audit entry. */
  predicate IsLogged(store: Store, call: Call, sp: Spelling) {
    IsAttempt(store, call, sp) && StopOf(call, sp) != BeforeUpdate && StopOf(call, sp) != BeforeAudit
  }

  /** And it updates the question. */
  predicate IsWritten(store: Store, call: Call, sp: Spelling) {
    IsAttempt(store, call, sp) && StopOf(call, sp) != BeforeUpdate
  }

  function ContentAfter(content: Content, call: Call, sp: Spelling): Content {
    if StopOf(call, sp) == BeforeUpdate then content else content + Stored(Updates(call.body, sp))
  }

  function Attempted(store: Store, call: Call, sp: Spelling): Store
    requires call.id in store.questions
  {
    var content := store.questions[call.id];
    var version := MaxVersion(store.versions, call.id) + 1;
    Store(store.questions[call.id := ContentAfter(content, call, sp)],
          store.versions + [Version(call.id, version, Snapshot(content), call.admin)],
          if StopOf(call, sp) == BeforeUpdate || StopOf(call, sp) == BeforeAudit then store.audits
          else store.audits + [Audit(call.id, version, Updates(call.body, sp).Keys, call.admin)])
  }

  function Patched(store: Store, call: Call, sp: Spelling): (Store, Outcome) {
    var fault := EditFault(store, call.id, call.body, sp);
    if fault.Some? then (store, Rejected(fault.value))
    else if StopOf(call, sp) == BeforeVersion then (store, Raised)
    else
      (Attempted(store, call, sp),
       if StopOf(call, sp) == NoHalt then Done(MaxVersion(store.versions, call.id) + 1) else Raised)
  }

  // ---------------------------------------------------------------------------------------
  // What an edit asks for and what it leaves, field by field

  /** A column takes the text given for it and else stays as it was. */
  ghost predicate TakesText(before: Content, after: Content, c: Column, given: Option<string>) {
    if given.Some? then c in after && after[c] == Str(given.value) else Stays(before, after, c)
  }

  /** The same with spaces beyond forty characters cut off; nothing else stands there. */
  ghost predicate TakesTag(before: Content, after: Content, c: Column, given: Option<string>) {
    if given.Some? then
      && c in after && after[c] == Str(if |given.value| <= 40 then given.value else given.value[..40])
      && forall i :: 40 <= i < |given.value| ==> given.value[i] == ' '
    else Stays(before, after, c)
  }

  ghost predicate TakesNumber(before: Content, after: Content, c: Column, given: Option<int>) {
    if given.Some? then c in after && after[c] == Int(given.value) else Stays(before, after, c)
  }

  /** Each option with the label, or else the letter, and the text that are given, both trimmed. */
  ghost predicate TakesOptions(before: Content, after: Content, given: Option<seq<RawOption>>) {
    if given.Some? then
      && Options in after && after[Options].Items? && |after[Options].items| == |given.value|
      && forall i :: 0 <= i < |given.value| ==>
           var (raw, item) := (given.value[i], after[Options].items[i]);
           && item.Labelled? && item.mark == Text.Strip(if raw.mark != "" then raw.mark else raw.letter)
           && item.text == Text.Strip(raw.text)
    else Stays(before, after, Options)
  }

  ghost predicate Stays(before: Content, after: Content, c: Column) {
    (c in after <==> c in before) && (c in before ==> after[c] == before[c])
  }

  /** Each of the nine columns holds what its own field gave, or what it held. */
  ghost predicate IsEdited(before: Content, after: Content, body: Request, sp: Spelling) {
    && TakesText(before, after, Prompt, body.prompt)
    && TakesOptions(before, after, body.options)
    && TakesText(before, after, Answer, body.answer)
    && TakesText(before, after, Explanation, body.explanation)
    && TakesText(before, after, Passage, body.passage)
    && TakesTag(before, after, Kind, if body.kind.Some? then Some(sp.slug(body.kind.value)) else None)
    && TakesNumber(before, after, Number, body.number)
    && TakesNumber(before, after, Part, body.part)
    && TakesTag(before, after, Skill, body.skill)
  }

  /** Exactly the columns whose fields are given. */
  ghost predicate AreGiven(columns: set<Column>, body: Request) {
    && (Prompt in columns <==> body.prompt.Some?) && (Options in columns <==> body.options.Some?)
    && (Answer in columns <==> body.answer.Some?) && (Explanation in columns <==> body.explanation.Some?)
    && (Passage in columns <==> body.passage.Some?) && (Kind in columns <==> body.kind.Some?)
    && (Number in columns <==> body.number.Some?) && (Part in columns <==> body.part.Some?)
    && (Skill in columns <==> body.skill.Some?)
  }

  /** The last version holds every column of the question as it was, under a number that is one, or
      one above another of the question's, and above all of them. */
  ghost predicate IsStoredFirst(before: Store, after: Store, call: Call)
    requires call.id in before.questions
  {
    && |after.versions| == |before.versions| + 1 && after.versions[..|before.versions|] == before.versions
    && var v := after.versions[|before.versions|];
       && v.question == call.id && v.admin == call.admin
       && (forall c: Column :: c in v.content
                               && v.content[c] == if c in before.questions[call.id] then before.questions[call.id][c] else Null)
       && v.version >= 1 && (forall u :: u in before.versions && u.question == call.id ==> u.version < v.version)
       && (v.version == 1 || exists u :: u in before.versions && u.question == call.id && u.version == v.version - 1)
  }

  /** The last audit entry names the last version and lists the given columns. */
  ghost predicate IsAudited(before: Store, after: Store, call: Call)
    requires |after.versions| > 0
  {
    && |after.audits| == |before.audits| + 1 && after.audits[..|before.audits|] == before.audits
    && var a := after.audits[|before.audits|];
       && a.question == call.id && a.admin == call.admin && a.version == after.versions[|after.versions| - 1].version
       && AreGiven(a.columns, call.body)
  }

  /** What one edit leaves: nothing but a report, or a version, and then maybe the new content, and
      then maybe the audit entry. Done means all three. */
  ghost predicate IsEdit(before: Store, after: Store, call: Call, r: Outcome, sp: Spelling) {
    && (forall k :: k != call.id ==>
          (k in after.questions <==> k in before.questions)
          && (k in before.questions ==> after.questions[k] == before.questions[k]))
    && (r.Rejected? ==> after == before)
    && (r == Raised && call.halt == BeforeVersion ==> after == before)
    && (!r.Rejected? && call.halt != BeforeVersion ==>
          && call.id in before.questions && call.id in after.questions && IsStoredFirst(before, after, call)
          && (after.audits != before.audits ==>
                IsEdited(before.questions[call.id], after.questions[call.id], call.body, sp) && IsAudited(before, after, call))
          && (after.audits == before.audits ==>
                r == Raised
                && (IsEdited(before.questions[call.id], after.questions[call.id], call.body, sp)
                    || after.questions == before.questions))
          && (r.Done? ==> after.audits != before.audits && r.version == after.versions[|before.versions|].version))
    && (r.Done? ==> call.halt == NoHalt)
  }

  lemma {:induction false} MaxVersionIs(versions: seq<Version>, id: Id)
    ensures MaxVersion(versions, id) >= 0
    ensures forall u :: u in versions && u.question == id ==> u.version <= MaxVersion(versions, id)
    ensures MaxVersion(versions, id) == 0
         || exists u :: u in versions && u.question == id && u.version == MaxVersion(versions, id)
  {
    if versions != [] {
      var (init, last) := (versions[..|versions| - 1], versions[|versions| - 1]);
      MaxVersionIs(init, id);
      assert forall u :: u in versions <==> u in init || u == last by { assert versions == init + [last]; }
    }
  }

  /** What one column holds after the update. */
  lemma {:induction false} UpdatedAt(content: Content, updates: Content, c: Column)
    ensures var after := content + Stored(updates);
            && (c !in updates ==> Stays(content, after, c))
            && (c in updates && c != Kind && c != Skill ==> c in after && after[c] == updates[c])
            && (c in updates && (c == Kind || c == Skill) && updates[c].Str? ==>
                  c in after
                  && after[c] == Str(if |updates[c].text| <= 40 then updates[c].text else updates[c].text[..40]))
  {
  }

  lemma {:induction false} TagIsTaken(content: Content, updates: Content, c: Column, given: Option<string>)
    requires IsStorable(updates) && (c == Kind || c == Skill)
    requires c in updates <==> given.Some?
    requires given.Some? ==> updates[c] == Str(given.value)
    ensures TakesTag(content, content + Stored(updates), c, given)
  {
    UpdatedAt(content, updates, c);
    if c in updates {
      assert CanStore(c, updates[c]);
    }
  }

  lemma {:induction false} UpdatesAreEdits(content: Content, body: Request, sp: Spelling)
    requires IsStorable(Updates(body, sp))
    ensures IsEdited(content, content + Stored(Updates(body, sp)), body, sp)
  {
    hide Text.Strip, Updates, Stored, IsStorable, TakesTag, Stays;
    var updates := Updates(body, sp);
    UpdatedAt(content, updates, Prompt);
    UpdatedAt(content, updates, Options);
    UpdatedAt(content, updates, Answer);
    UpdatedAt(content, updates, Explanation);
    UpdatedAt(content, updates, Passage);
    UpdatedAt(content, updates, Number);
    UpdatedAt(content, updates, Part);
    TagIsTaken(content, updates, Kind, if body.kind.Some? then Some(sp.slug(body.kind.value)) else None);
    TagIsTaken(content, updates, Skill, body.skill);
  }

  lemma {:induction false} UpdatesAreGiven(body: Request, sp: Spelling)
    ensures AreGiven(Updates(body, sp).Keys, body)
  {
    hide Updates;
  }

  lemma {:induction false} AttemptStores(store: Store, call: Call, sp: Spelling)
    requires call.id in store.questions
    ensures IsStoredFirst(store, Attempted(store, call, sp), call)
  {
    hide ContentAfter, Updates, MaxVersion, Snapshot;
    MaxVersionIs(store.versions, call.id);
  }

  lemma {:induction false} PatchedIsEdit(store: Store, call: Call, sp: Spelling)
    ensures var (after, r) := Patched(store, call, sp); IsEdit(store, after, call, r, sp)
  {
    hide IsStoredFirst, IsEdited, AreGiven, Updates, Stored, IsStorable, MaxVersion, Snapshot, AnswerFits, OptionsFault;
    if call.id in store.questions {
      AttemptStores(store, call, sp);
      UpdatesAreGiven(call.body, sp);
      NothingIsStorable();
      if IsStorable(Updates(call.body, sp)) {
        UpdatesAreEdits(store.questions[call.id], call.body, sp);
      }
      assert store.questions[call.id := store.questions[call.id]] == store.questions;
    }
  }

  /** Two or more options, each with a label (or else a letter) and a text that are not blank, and
      no two labels alike in upper case. */
  ghost predicate AreLabelled(raw: seq<RawOption>, upper: string -> string) {
    && |raw| >= 2
    && (forall i :: 0 <= i < |raw| ==>
          Text.Strip(if raw[i].mark != "" then raw[i].mark else raw[i].letter) != "" && Text.Strip(raw[i].text) != "")
    && forall i, j :: 0 <= i < j < |raw| ==>
         upper(Text.Strip(if raw[i].mark != "" then raw[i].mark else raw[i].letter))
           != upper(Text.Strip(if raw[j].mark != "" then raw[j].mark else raw[j].letter))
  }

  /** The answer that holds after the edit is blank or missing, or there are no options then, or it
      is the label of one of them. */
  ghost predicate IsListed(content: Content, body: Request) {
    var answer := if body.answer.Some? then body.answer
                  else if Answer in content && content[Answer].Str? then Some(content[Answer].text) else None;
    answer.None? || Text.Strip(answer.value) == "" ||
    if body.options.Some? then
      var raw := body.options.value;
      || raw == []
      || exists i :: 0 <= i < |raw| &&
           Text.Strip(if raw[i].mark != "" then raw[i].mark else raw[i].letter) == Text.Strip(answer.value)
    else
      || Options !in content || content[Options] == Null
      || (content[Options].Items?
          && (content[Options].items == []
              || exists i :: 0 <= i < |content[Options].items| && content[Options].items[i].Labelled?
                             && Text.Strip(content[Options].items[i].mark) == Text.Strip(answer.value)))
  }

  ghost predicate IsAccepted(store: Store, call: Call, sp: Spelling) {
    && call.id in store.questions
    && (call.body.options.Some? ==> AreLabelled(call.body.options.value, sp.upper))
    && IsListed(store.questions[call.id], call.body)
  }

  ghost predicate HoldsText(given: Option<string>) { given.Some? ==> '\0' !in given.value }

  ghost predicate HoldsTag(given: string) { '\0' !in given && forall i :: 40 <= i < |given| ==> given[i] == ' ' }

  ghost predicate HoldsOptions(given: seq<RawOption>) {
    forall i :: 0 <= i < |given| ==>
      && '\0' !in Text.Strip(if given[i].mark != "" then given[i].mark else given[i].letter)
      && '\0' !in Text.Strip(given[i].text)
  }

  /** The table's columns can hold what is given for them. */
  ghost predicate IsHeld(body: Request, sp: Spelling) {
    && HoldsText(body.prompt) && HoldsText(body.answer) && HoldsText(body.explanation) && HoldsText(body.passage)
    && (body.kind.Some? ==> HoldsTag(sp.slug(body.kind.value)))
    && (body.skill.Some? ==> HoldsTag(body.skill.value))
    && (body.number.Some? ==> -0x8000_0000 <= body.number.value < 0x8000_0000)
    && (body.part.Some? ==> 1 <= body.part.value <= 4)
    && (body.options.Some? ==> HoldsOptions(body.options.value))
  }

  lemma {:induction false} LabelledIff(raw: seq<RawOption>, upper: string -> string)
    ensures OptionsFault(raw, upper).None? <==> AreLabelled(raw, upper)
  {
    hide Text.Strip, OptionsFault;
    OptionsFaultIsNone(raw, upper);
  }

  lemma {:induction false} AnswerIsListed(content: Content, body: Request, sp: Spelling)
    ensures AnswerFits(content + Updates(body, sp)) <==> IsListed(content, body)
  {
    hide Text.Strip, Updates, Labels;
    var after := content + Updates(body, sp);
    if At(after, Options).Items? {
      var items := At(after, Options).items;
      LabelsAre(items);
      if body.options.Some? {
        var raw := body.options.value;
        forall i | 0 <= i < |raw|
          ensures Text.Strip(items[i].mark) == Text.Strip(if raw[i].mark != "" then raw[i].mark else raw[i].letter)
        {
          Text.StripTrims(if raw[i].mark != "" then raw[i].mark else raw[i].letter);
          Text.StripTrims(items[i].mark);
        }
      }
    }
  }

  lemma LabelsAre(items: seq<Item>)
    ensures forall mark :: mark in Labels(items) <==>
      exists i :: 0 <= i < |items| && items[i].Labelled? && Text.Strip(items[i].mark) == mark
  {
  }

  lemma {:induction false} HeldIff(body: Request, sp: Spelling)
    ensures IsStorable(Updates(body, sp)) <==> IsHeld(body, sp)
  {
    hide Text.Strip, Updates, HoldsText, HoldsTag, CanStore, HoldsOptions;
    var updates := Updates(body, sp);
    TextHeld(updates, Prompt, body.prompt);
    TextHeld(updates, Answer, body.answer);
    TextHeld(updates, Explanation, body.explanation);
    TextHeld(updates, Passage, body.passage);
    TagHeld(updates, Kind, if body.kind.Some? then Some(sp.slug(body.kind.value)) else None);
    TagHeld(updates, Skill, body.skill);
    NumberHeld(updates, Number, body.number);
    NumberHeld(updates, Part, body.part);
    OptionsHeld(updates, body.options);
    if IsHeld(body, sp) {
      forall c: Column | c in updates ensures CanStore(c, updates[c]) {
        match c { case Prompt | Options | Answer => case Explanation | Passage | Kind => case Number | Part | Skill => }
      }
    }
  }

  lemma NumberHeld(updates: Content, c: Column, given: Option<int>)
    requires c in {Number, Part} && (c in updates <==> given.Some?)
    requires given.Some? ==> updates[c] == Int(given.value)
    ensures (c in updates ==> CanStore(c, updates[c])) <==>
      (given.Some? ==> if c == Part then 1 <= given.value <= 4 else -0x8000_0000 <= given.value < 0x8000_0000)
  {
  }

  lemma OptionsHeld(updates: Content, given: Option<seq<RawOption>>)
    requires Options in updates <==> given.Some?
    requires given.Some? ==> updates[Options] == Items(Cleaned(given.value))
    ensures (Options in updates ==> CanStore(Options, updates[Options])) <==> (given.Some? ==> HoldsOptions(given.value))
  {
    hide Text.Strip;
    if given.Some? {
      assert forall i :: 0 <= i < |given.value| ==> Cleaned(given.value)[i].Labelled?;
    }
  }

  lemma TextHeld(updates: Content, c: Column, given: Option<string>)
    requires c in {Prompt, Answer, Explanation, Passage} && (c in updates <==> given.Some?)
    requires given.Some? ==> updates[c] == Str(given.value)
    ensures (c in updates ==> CanStore(c, updates[c])) <==> HoldsText(given)
  {
  }

  lemma TagHeld(updates: Content, c: Column, given: Option<string>)
    requires c in {Kind, Skill} && (c in updates <==> given.Some?)
    requires given.Some? ==> updates[c] == Str(given.value)
    ensures (c in updates ==> CanStore(c, updates[c])) <==> (given.Some? ==> HoldsTag(given.value))
  {
  }

  /** An edit is refused exactly if it is not accepted, and then with the first of the three reasons;
      otherwise it comes as far as the first exception, and a value that the table cannot hold is one
      before the update. */
  lemma {:induction false} EditIsChecked(store: Store, call: Call, sp: Spelling)
    ensures var (after, r) := Patched(store, call, sp);
            var accepted := IsAccepted(store, call, sp);
            && (r.Rejected? <==> !accepted)
            && (r == Rejected(NotFound) <==> call.id !in store.questions)
            && (r == Rejected(NotALabel) <==>
                  && call.id in store.questions && !IsListed(store.questions[call.id], call.body)
                  && (call.body.options.Some? ==> AreLabelled(call.body.options.value, sp.upper)))
            && (r.Done? <==> accepted && call.halt == NoHalt && IsHeld(call.body, sp))
            && (after.audits != store.audits <==>
                  accepted && IsHeld(call.body, sp) && (call.halt == NoHalt || call.halt == AfterAudit))
            && (accepted && (call.halt == BeforeUpdate || !IsHeld(call.body, sp)) ==> after.questions == store.questions)
            && (accepted && IsHeld(call.body, sp) && call.halt == BeforeAudit ==>
                  IsEdited(store.questions[call.id], after.questions[call.id], call.body, sp))
  {
    hide AnswerFits, OptionsFault, Updates, Stored, IsStorable, MaxVersion, Snapshot, AreLabelled, IsListed, IsHeld, IsEdited;
    NothingIsStorable();
    HeldIff(call.body, sp);
    if call.body.options.Some? {
      LabelledIff(call.body.options.value, sp.upper);
      FaultOfOptions(call.body.options.value, sp.upper);
    }
    if call.id in store.questions {
      AnswerIsListed(store.questions[call.id], call.body, sp);
      if IsStorable(Updates(call.body, sp)) {
        UpdatesAreEdits(store.questions[call.id], call.body, sp);
      }
      assert store.questions[call.id := store.questions[call.id]] == store.questions;
    }
  }

  lemma {:induction false} FirstFaultIs(raw: seq<RawOption>, i: nat, upper: string -> string)
    requires i <= |raw|
    ensures FirstFault(raw, i, upper).Some? ==>
      exists k :: i <= k < |raw| && FirstFault(raw, i, upper) == OptionFault(raw, k, upper)
                  && forall j :: i <= j < k ==> OptionFault(raw, j, upper) == None
    decreases |raw| - i
  {
    hide OptionFault;
    if i < |raw| {
      FirstFaultIs(raw, i + 1, upper);
    }
  }

  /** Fewer than two options are too few; otherwise the fault is that of the first option that has
      no label, or no text, or the label of an earlier one. */
  lemma {:induction false} FaultOfOptions(raw: seq<RawOption>, upper: string -> string)
    ensures OptionsFault(raw, upper) == Some(TooFew) <==> |raw| < 2
    ensures OptionsFault(raw, upper) != Some(NotFound) && OptionsFault(raw, upper) != Some(NotALabel)
    ensures OptionsFault(raw, upper).Some? && |raw| >= 2 ==>
      exists k :: 0 <= k < |raw|
        && (forall j :: 0 <= j < k ==> OptionFault(raw, j, upper) == None)
        && var mark := Text.Strip(if raw[k].mark != "" then raw[k].mark else raw[k].letter);
           match OptionsFault(raw, upper).value
           case NoLabel => mark == ""
           case NoText(m) => mark == m != "" && Text.Strip(raw[k].text) == ""
           case Duplicate(m) =>
             && mark == m != "" && Text.Strip(raw[k].text) != ""
             && exists j :: 0 <= j < k && upper(Text.Strip(if raw[j].mark != "" then raw[j].mark else raw[j].letter)) == upper(m)
           case _ => false
  {
    hide FirstFault, Text.Strip;
    FirstFaultIs(raw, 0, upper);
  }

  class Questions {
    var questions: map<Id, Content>
    var versions: seq<Version>
    var audits: seq<Audit>
    const sp: Spelling

    constructor (questions: map<Id, Content>, sp: Spelling)
      ensures View() == Store(questions, [], []) && this.sp == sp
    {
      this.questions, versions, audits, this.sp := questions, [], [], sp;
    }

    function View(): Store
      reads this
    {
      Store(questions, versions, audits)
    }

    /** One more than the highest version of the question. */
    method NextVersion(id: Id) returns (version: int)
      ensures version == MaxVersion(versions, id) + 1
    {
      version := 0;
      for i := 0 to |versions|
        invariant version == MaxVersion(versions[..i], id)
      {
        assert versions[..i + 1][..i] == versions[..i];
        if versions[i].question == id && versions[i].version > version {
          version := versions[i].version;
        }
      }
      assert versions[..|versions|] == versions;
      version := version + 1;
    }

    /** The updates, column by column. */
    method Gather(body: Request) returns (r: Result<Content, Fault>)
      ensures r == if body.options.Some? && OptionsFault(body.options.value, sp.upper).Some?
                   then Err(OptionsFault(body.options.value, sp.upper).value) else Ok(Updates(body, sp))
    {
      hide OptionsFault, Cleaned, Updates;
      var updates: Content := map[];
      updates := Put(updates, Prompt, AsText(body.prompt));
      if body.options.Some? {
        var items := NormalizeOptions(body.options.value, sp.upper);
        if items.Err? {
          return Err(items.error);
        }
        updates := updates[Options := Items(items.value)];
      }
      updates := Put(updates, Answer, AsText(body.answer));
      updates := Put(updates, Explanation, AsText(body.explanation));
      if body.kind.Some? {
        updates := updates[Kind := Str(sp.slug(body.kind.value))];
      }
      updates := Put(updates, Number, AsInt(body.number));
      updates := Put(updates, Part, AsInt(body.part));
      updates := Put(updates, Passage, AsText(body.passage));
      updates := Put(updates, Skill, AsText(body.skill));
      assert updates == PutAll(body, sp);
      PutAllIsUpdates(body, sp);
      r := Ok(updates);
    }

    /** The update of one row, which a value may make the database refuse. */
    method Write(id: Id, updates: Content) returns (ok: bool)
      requires id in questions
      modifies this`questions
      ensures ok == IsStorable(updates)
      ensures questions == if ok then old(questions)[id := old(questions)[id] + Stored(updates)] else old(questions)
    {
      ok := IsStorable(updates);
      if ok {
        questions := questions[id := questions[id] + Stored(updates)];
      }
    }

    /** The checks, in their order. */
    method Check(id: Id, body: Request) returns (r: Result<Content, Fault>)
      ensures r == if EditFault(View(), id, body, sp).Some? then Err(EditFault(View(), id, body, sp).value)
                   else Ok(Updates(body, sp))
    {
      hide AnswerFits, OptionsFault, Updates;
      if id !in questions {
        return Err(NotFound);
      }
      r := Gather(body);
      if r.Ok? && !AnswerFits(questions[id] + r.value) {
        return Err(NotALabel);
      }
    }

    /** The three writes, one after the other. */
    method WriteAll(id: Id, body: Request, admin: Id, halt: Halt, updates: Content) returns (r: Outcome)
      requires EditFault(View(), id, body, sp).None? && updates == Updates(body, sp)
      modifies this
      ensures (View(), r) == Patched(old(View()), Call(id, body, admin, halt), sp)
    {
      hide AnswerFits, OptionsFault, MaxVersion, Updates, Stored, IsStorable, Snapshot;
      if halt == BeforeVersion {
        return Raised;
      }
      var content := questions[id];
      var version := NextVersion(id);
      versions := versions + [Version(id, version, Snapshot(content), admin)];
      NothingToStore(content);
      assert questions[id := content] == questions;
      if updates != map[] {
        if halt == BeforeUpdate {
          return Raised;
        }
        var ok := Write(id, updates);
        if !ok {
          return Raised;
        }
      }
      if halt == BeforeUpdate || halt == BeforeAudit {
        return Raised;
      }
      audits := audits + [Audit(id, version, updates.Keys, admin)];
      r := if halt == AfterAudit then Raised else Done(version);
    }

    /** An edit that fails the checks writes nothing and says why; one that passes them leaves a
        version, the new content and an audit entry, in that order, as far as it comes. */
    method Patch(id: Id, body: Request, admin: Id, halt: Halt) returns (r: Outcome)
      modifies this
      ensures (View(), r) == Patched(old(View()), Call(id, body, admin, halt), sp)
      ensures r.Rejected? <==> EditFault(old(View()), id, body, sp).Some?
      ensures r.Rejected? ==> View() == old(View())
      ensures IsEdit(old(View()), View(), Call(id, body, admin, halt), r, sp)
      ensures r.Rejected? <==> !IsAccepted(old(View()), Call(id, body, admin, halt), sp)
    {
      hide EditFault, Attempted, StopOf, Updates, IsEdit, IsAccepted;
      PatchedIsEdit(View(), Call(id, body, admin, halt), sp);
      EditIsChecked(View(), Call(id, body, admin, halt), sp);
      var checked := Check(id, body);
      if checked.Err? {
        return Rejected(checked.error);
      }
      r := WriteAll(id, body, admin, halt, checked.value);
    }
  }

  lemma NothingToStore(content: Content)
    ensures content + Stored(map[]) == content
  {
  }

  // ---------------------------------------------------------------------------------------
  // Runs

  function Step(store: Store, call: Call, sp: Spelling): Store { Patched(store, call, sp).0 }

  function Run(store: Store, calls: seq<Call>, sp: Spelling): Store {
    if calls == [] then store else Step(Run(store, calls[..|calls| - 1], sp), calls[|calls| - 1], sp)
  }

  /** How many edits of a question stored a version in a run. */
  function Attempts(store: Store, calls: seq<Call>, sp: Spelling, id: Id): nat {
    if calls == [] then 0
    else
      var last := calls[|calls| - 1];
      Attempts(store, calls[..|calls| - 1], sp, id)
      + if last.id == id && IsAttempt(Run(store, calls[..|calls| - 1], sp), last, sp) then 1 else 0
  }

  function Of(versions: seq<Version>, id: Id): (r: seq<Version>)
    ensures forall v :: v in r <==> v in versions && v.question == id
  {
    if versions == [] then []
    else
      var last := versions[|versions| - 1];
      assert versions == versions[..|versions| - 1] + [last];
      Of(versions[..|versions| - 1], id) + if last.question == id then [last] else []
  }

  function AuditsOf(audits: seq<Audit>, id: Id): (r: seq<Audit>)
    ensures forall a :: a in r <==> a in audits && a.question == id
  {
    if audits == [] then []
    else
      var last := audits[|audits| - 1];
      assert audits == audits[..|audits| - 1] + [last];
      AuditsOf(audits[..|audits| - 1], id) + if last.question == id then [last] else []
  }

  lemma OfOneMore(versions: seq<Version>, v: Version, id: Id)
    ensures Of(versions + [v], id) == Of(versions, id) + if v.question == id then [v] else []
    ensures MaxVersion(versions + [v], id)
         == if v.question == id && v.version > MaxVersion(versions, id) then v.version else MaxVersion(versions, id)
  {
  }

  lemma AuditsOfOneMore(audits: seq<Audit>, a: Audit, id: Id)
    ensures AuditsOf(audits + [a], id) == AuditsOf(audits, id) + if a.question == id then [a] else []
  {
  }

  /** The columns that the audit entries of a version list. */
  function Logged(audits: seq<Audit>, version: int): set<Column> {
    if audits == [] then {}
    else
      var last := audits[|audits| - 1];
      Logged(audits[..|audits| - 1], version) + if last.version == version then last.columns else {}
  }

  lemma LoggedOneMore(audits: seq<Audit>, a: Audit, version: int)
    ensures Logged(audits + [a], version)
         == if a.version == version then Logged(audits, version) + a.columns else Logged(audits, version)
  {
    assert (audits + [a])[..|audits|] == audits;
  }

  lemma {:induction false} NothingLogged(audits: seq<Audit>, n: nat)
    requires forall k :: 0 <= k < |audits| ==> audits[k].version <= n
    ensures Logged(audits, n + 1) == {}
  {
    if audits != [] {
      NothingLogged(audits[..|audits| - 1], n);
    }
  }

  /** The content after version k: the next version, or the question as it is. */
  function After(versions: seq<Version>, now: Content, k: nat): Content
    requires k < |versions|
  {
    if k + 1 < |versions| then versions[k + 1].content else now
  }

  predicate DiffersIn(before: Content, after: Content, columns: set<Column>) {
    forall c: Column :: c !in columns ==> At(before, c) == At(after, c)
  }

  /** Versions 1 to n. */
  predicate AreNumbered(versions: seq<Version>) {
    forall k :: 0 <= k < |versions| ==> versions[k].version == k + 1
  }

  /** One audit entry for each version. */
  predicate ArePaired(versions: seq<Version>, audits: seq<Audit>) {
    |audits| == |versions| && forall k :: 0 <= k < |audits| ==> audits[k].version == k + 1
  }

  /** From version k to what came after it no column changed that no audit entry of the version lists. */
  predicate Tells(versions: seq<Version>, audits: seq<Audit>, now: Content, k: nat)
    requires k < |versions|
  {
    DiffersIn(versions[k].content, After(versions, now, k), Logged(audits, k + 1))
  }

  predicate AreTold(versions: seq<Version>, audits: seq<Audit>, now: Content) {
    forall k :: 0 <= k < |versions| ==> Tells(versions, audits, now, k)
  }

  /** What every run keeps of the entries: there are no more of them than versions, and when there
      are as many they pair up. */
  predicate AreEntries(versions: seq<Version>, audits: seq<Audit>) {
    && |audits| <= |versions|
    && (forall k :: 0 <= k < |audits| ==> audits[k].version <= |versions|)
    && (|audits| == |versions| ==> ArePaired(versions, audits))
  }

  predicate IsHistory(store: Store, id: Id) {
    && AreNumbered(Of(store.versions, id))
    && MaxVersion(store.versions, id) == |Of(store.versions, id)|
    && AreEntries(Of(store.versions, id), AuditsOf(store.audits, id))
  }

  predicate IsPaired(store: Store, id: Id) { ArePaired(Of(store.versions, id), AuditsOf(store.audits, id)) }

  predicate IsTold(store: Store, id: Id)
    requires id in store.questions
  {
    AreTold(Of(store.versions, id), AuditsOf(store.audits, id), Snapshot(store.questions[id]))
  }

  /** Numbered, paired and told. */
  predicate Chained(store: Store, id: Id)
    requires id in store.questions
  {
    IsHistory(store, id) && IsPaired(store, id) && IsTold(store, id)
  }

  /** Without versions, as the constructor leaves it, every question has such a history. */
  lemma StartsChained(questions: map<Id, Content>, id: Id)
    requires id in questions
    ensures Chained(Store(questions, [], []), id) && Of([], id) == []
  {
  }

  // ---------------------------------------------------------------------------------------
  // One step

  /** The edit is no attempt, or it leaves an audit entry. */
  predicate KeepsPairs(store: Store, call: Call, sp: Spelling, id: Id) {
    call.id == id && IsAttempt(store, call, sp) ==> IsLogged(store, call, sp)
  }

  /** The edit leaves an audit entry, or changes nothing. */
  predicate KeepsTold(store: Store, call: Call, sp: Spelling, id: Id) {
    call.id == id && IsAttempt(store, call, sp) && !IsLogged(store, call, sp) ==>
      DiffersIn(store.questions[id], ContentAfter(store.questions[id], call, sp), {})
  }

  lemma StepKeepsOthers(store: Store, call: Call, sp: Spelling, id: Id)
    requires id != call.id || !IsAttempt(store, call, sp)
    ensures var after := Step(store, call, sp);
            && Of(after.versions, id) == Of(store.versions, id)
            && AuditsOf(after.audits, id) == AuditsOf(store.audits, id)
            && MaxVersion(after.versions, id) == MaxVersion(store.versions, id)
            && (id in after.questions <==> id in store.questions)
            && (id in store.questions ==> after.questions[id] == store.questions[id])
  {
    hide Updates, Of, AuditsOf, MaxVersion, Snapshot, Stored;
    if IsAttempt(store, call, sp) {
      var after := Step(store, call, sp);
      OfOneMore(store.versions, after.versions[|store.versions|], id);
      if IsLogged(store, call, sp) {
        AuditsOfOneMore(store.audits, after.audits[|store.audits|], id);
      } else {
        assert after.audits == store.audits;
      }
    }
  }

  /** What an attempt adds to the history of its question. */
  lemma AttemptAdds(store: Store, call: Call, sp: Spelling)
    requires IsHistory(store, call.id) && IsAttempt(store, call, sp)
    ensures var (id, after) := (call.id, Step(store, call, sp));
            var n := |Of(store.versions, id)|;
            && id in store.questions && id in after.questions
            && after.questions[id] == ContentAfter(store.questions[id], call, sp)
            && Of(after.versions, id)
               == Of(store.versions, id) + [Version(id, n + 1, Snapshot(store.questions[id]), call.admin)]
            && MaxVersion(after.versions, id) == n + 1
            && AuditsOf(after.audits, id)
               == if IsLogged(store, call, sp)
                  then AuditsOf(store.audits, id) + [Audit(id, n + 1, Updates(call.body, sp).Keys, call.admin)]
                  else AuditsOf(store.audits, id)
  {
    hide Updates, Of, AuditsOf, MaxVersion, Snapshot, Stored, AreNumbered, AreEntries, ContentAfter;
    var after := Step(store, call, sp);
    OfOneMore(store.versions, after.versions[|store.versions|], call.id);
    if IsLogged(store, call, sp) {
      AuditsOfOneMore(store.audits, after.audits[|store.audits|], call.id);
    } else {
      assert after.audits == store.audits;
    }
  }

  /** A new version without an entry tells what came after it only if nothing changed. */
  lemma {:induction false} UntoldVersion(versions: seq<Version>, audits: seq<Audit>, now: Content, v: Version, next: Content)
    requires AreEntries(versions, audits) && v.content == now
    ensures AreTold(versions + [v], audits, next) <==> AreTold(versions, audits, now) && DiffersIn(now, next, {})
  {
    hide DiffersIn, Logged;
    NothingLogged(audits, |versions|);
    var vs := versions + [v];
    forall k | 0 <= k < |versions| ensures Tells(vs, audits, next, k) == Tells(versions, audits, now, k) {
    }
    assert Tells(vs, audits, next, |versions|) == DiffersIn(now, next, {});
  }

  /** One with an entry that lists its updates always does. */
  lemma {:induction false} ToldVersion(versions: seq<Version>, audits: seq<Audit>, now: Content, v: Version, a: Audit,
                                       next: Content)
    requires AreEntries(versions, audits) && v.content == now
    requires a.version == |versions| + 1 && DiffersIn(now, next, a.columns)
    ensures AreTold(versions + [v], audits + [a], next) <==> AreTold(versions, audits, now)
  {
    hide DiffersIn, Logged;
    NothingLogged(audits, |versions|);
    var vs := versions + [v];
    forall k | 0 <= k < |versions| ensures Tells(vs, audits + [a], next, k) == Tells(versions, audits, now, k) {
      LoggedOneMore(audits, a, k + 1);
    }
    LoggedOneMore(audits, a, |versions| + 1);
    assert {} + a.columns == a.columns;
    assert Tells(vs, audits + [a], next, |versions|);
    assert AreTold(vs, audits + [a], next) ==> forall k :: 0 <= k < |versions| ==> Tells(vs, audits + [a], next, k);
  }

  lemma EntriesGrow(versions: seq<Version>, audits: seq<Audit>, v: Version, a: Audit)
    requires AreEntries(versions, audits) && a.version == |versions| + 1
    ensures AreEntries(versions + [v], audits) && !ArePaired(versions + [v], audits)
    ensures AreEntries(versions + [v], audits + [a])
    ensures ArePaired(versions + [v], audits + [a]) <==> ArePaired(versions, audits)
  {
  }

  /** Only listed columns change, and the snapshots show it. */
  lemma UpdateDiffers(content: Content, updates: Content)
    ensures DiffersIn(Snapshot(content), Snapshot(content + Stored(updates)), updates.Keys)
  {
  }

  lemma SnapshotsDiffer(a: Content, b: Content, columns: set<Column>)
    ensures DiffersIn(Snapshot(a), Snapshot(b), columns) <==> DiffersIn(a, b, columns)
  {
    assert forall c: Column :: At(Snapshot(a), c) == At(a, c) && At(Snapshot(b), c) == At(b, c);
  }

  /** One step keeps versions numbered whatever is raised, and pairs and tells exactly as above. */
  lemma {:induction false} StepKeepsHistory(store: Store, call: Call, sp: Spelling, id: Id)
    requires id in store.questions && IsHistory(store, id)
    ensures var after := Step(store, call, sp);
            && id in after.questions && IsHistory(after, id)
            && |Of(after.versions, id)| == |Of(store.versions, id)|
                 + (if call.id == id && IsAttempt(store, call, sp) then 1 else 0)
            && (IsPaired(after, id) <==> IsPaired(store, id) && KeepsPairs(store, call, sp, id))
            && (IsTold(after, id) <==> IsTold(store, id) && KeepsTold(store, call, sp, id))
  {
    hide Of, AuditsOf, Updates, MaxVersion, Step, EditFault, StopOf, ContentAfter;
    hide AreTold, ArePaired, AreEntries, Snapshot, DiffersIn;
    if call.id == id && IsAttempt(store, call, sp) {
      AttemptAdds(store, call, sp);
      AttemptTells(store, call, sp);
      var n := |Of(store.versions, id)|;
      var v := Version(id, n + 1, Snapshot(store.questions[id]), call.admin);
      var entry := Audit(id, n + 1, Updates(call.body, sp).Keys, call.admin);
      EntriesGrow(Of(store.versions, id), AuditsOf(store.audits, id), v, entry);
    } else {
      StepKeepsOthers(store, call, sp, id);
    }
  }

  lemma {:induction false} AttemptTells(store: Store, call: Call, sp: Spelling)
    requires IsHistory(store, call.id) && IsAttempt(store, call, sp)
    ensures call.id in store.questions && call.id in Step(store, call, sp).questions
    ensures IsTold(Step(store, call, sp), call.id)
        <==> IsTold(store, call.id) && KeepsTold(store, call, sp, call.id)
  {
    hide Of, AuditsOf, Updates, MaxVersion, Step, EditFault, AreTold, ArePaired, AreEntries;
    hide Snapshot, DiffersIn, Stored, IsStorable;
    var id := call.id;
    AttemptAdds(store, call, sp);
    var (content, next) := (store.questions[id], ContentAfter(store.questions[id], call, sp));
    var (versions, audits) := (Of(store.versions, id), AuditsOf(store.audits, id));
    var v := Version(id, |versions| + 1, Snapshot(content), call.admin);
    if IsLogged(store, call, sp) {
      UpdateDiffers(content, Updates(call.body, sp));
      ToldVersion(versions, audits, Snapshot(content), v, Audit(id, |versions| + 1, Updates(call.body, sp).Keys, call.admin),
                  Snapshot(next));
    } else {
      UntoldVersion(versions, audits, Snapshot(content), v, Snapshot(next));
      SnapshotsDiffer(content, next, {});
    }
  }

  // ---------------------------------------------------------------------------------------
  // Many

  /** Every edit of the question in the run leaves an audit entry if it stores a version. */
  predicate AllLogged(store: Store, calls: seq<Call>, sp: Spelling, id: Id) {
    forall j :: 0 <= j < |calls| ==> KeepsPairs(Run(store, calls[..j], sp), calls[j], sp, id)
  }

  /** None of them changes the question without an audit entry. */
  predicate AllTold(store: Store, calls: seq<Call>, sp: Spelling, id: Id)
    requires id in store.questions
  {
    forall j :: 0 <= j < |calls| ==>
      id in Run(store, calls[..j], sp).questions && KeepsTold(Run(store, calls[..j], sp), calls[j], sp, id)
  }

  lemma {:induction false} AllOfOneMore(store: Store, calls: seq<Call>, sp: Spelling, id: Id)
    requires calls != [] && id in store.questions && id in Run(store, calls[..|calls| - 1], sp).questions
    ensures var (init, last) := (calls[..|calls| - 1], calls[|calls| - 1]);
            && (AllLogged(store, calls, sp, id)
                <==> AllLogged(store, init, sp, id) && KeepsPairs(Run(store, init, sp), last, sp, id))
            && (AllTold(store, calls, sp, id)
                <==> AllTold(store, init, sp, id) && KeepsTold(Run(store, init, sp), last, sp, id))
  {
    hide KeepsPairs, KeepsTold, Run;
    var init := calls[..|calls| - 1];
    assert forall j :: 0 <= j < |init| ==> init[..j] == calls[..j];
  }

  /** Over any run of edits of any questions, whatever is raised where, the versions of each are
      exactly 1 to n, one for each edit that passed the checks. There is one audit entry for each
      version if and only if every such edit got that far, and consecutive contents differ only in
      audited columns if and only if none that did not get that far had changed the question. */
  lemma {:induction false} RunKeepsHistory(store: Store, calls: seq<Call>, sp: Spelling, id: Id)
    requires id in store.questions && Chained(store, id)
    ensures var after := Run(store, calls, sp);
            && id in after.questions && IsHistory(after, id)
            && |Of(after.versions, id)| == |Of(store.versions, id)| + Attempts(store, calls, sp, id)
            && (IsPaired(after, id) <==> AllLogged(store, calls, sp, id))
            && (IsTold(after, id) <==> AllTold(store, calls, sp, id))
  {
    hide IsHistory, IsPaired, IsTold, Of, Step, IsAttempt, KeepsPairs, KeepsTold, AllLogged, AllTold;
    if calls == [] {
      NothingHappened(store, sp, id);
    } else {
      var init := calls[..|calls| - 1];
      RunKeepsHistory(store, init, sp, id);
      StepKeepsHistory(Run(store, init, sp), calls[|calls| - 1], sp, id);
      AllOfOneMore(store, calls, sp, id);
    }
  }

  lemma NothingHappened(store: Store, sp: Spelling, id: Id)
    requires id in store.questions
    ensures AllLogged(store, [], sp, id) && AllTold(store, [], sp, id)
  {
  }

  lemma StepOnlyAdds(store: Store, call: Call, sp: Spelling, id: Id)
    ensures Of(store.versions, id) <= Of(Step(store, call, sp).versions, id)
    ensures AuditsOf(store.audits, id) <= AuditsOf(Step(store, call, sp).audits, id)
  {
    hide Updates, Of, AuditsOf, MaxVersion, Snapshot, Stored, EditFault;
    var after := Step(store, call, sp);
    if IsAttempt(store, call, sp) {
      OfOneMore(store.versions, after.versions[|store.versions|], id);
      if IsLogged(store, call, sp) {
        AuditsOfOneMore(store.audits, after.audits[|store.audits|], id);
      } else {
        assert after.audits == store.audits;
      }
    }
  }

  /** No version and no audit entry is ever lost or changed. */
  lemma {:induction false} RunOnlyAdds(store: Store, calls: seq<Call>, sp: Spelling, id: Id, j: nat)
    requires j <= |calls|
    ensures Of(Run(store, calls[..j], sp).versions, id) <= Of(Run(store, calls, sp).versions, id)
    ensures AuditsOf(Run(store, calls[..j], sp).audits, id) <= AuditsOf(Run(store, calls, sp).audits, id)
  {
    hide Of, AuditsOf, Step;
    if j == |calls| {
      assert calls[..j] == calls;
    } else {
      var init := calls[..|calls| - 1];
      RunOnlyAdds(store, init, sp, id, j);
      assert init[..j] == calls[..j];
      StepOnlyAdds(Run(store, init, sp), calls[|calls| - 1], sp, id);
    }
  }

  /** From a question without versions: the k-th edit of a run that passes the checks leaves, for
      good, version k with the content the question had just before it, whatever is raised then;
      and if it gets that far an audit entry with that number and the columns the request gave. */
  lemma {:induction false} VersionIsContentBefore(store: Store, calls: seq<Call>, sp: Spelling, j: nat)
    requires j < |calls| && calls[j].id in store.questions && Chained(store, calls[j].id)
    requires Of(store.versions, calls[j].id) == []
    requires IsAttempt(Run(store, calls[..j], sp), calls[j], sp)
    ensures var (id, before, after) := (calls[j].id, Run(store, calls[..j], sp), Run(store, calls, sp));
            var k := Attempts(store, calls[..j], sp, id);
            && id in before.questions
            && k < |Of(after.versions, id)|
            && Of(after.versions, id)[k] == Version(id, k + 1, Snapshot(before.questions[id]), calls[j].admin)
            && (IsLogged(before, calls[j], sp) ==>
                  Audit(id, k + 1, Updates(calls[j].body, sp).Keys, calls[j].admin) in AuditsOf(after.audits, id))
  {
    hide IsHistory, IsPaired, IsTold, Of, AuditsOf, Step, Attempts, IsAttempt, IsLogged, AllLogged, AllTold, Updates, Snapshot;
    var id := calls[j].id;
    var before := Run(store, calls[..j], sp);
    RunKeepsHistory(store, calls[..j], sp, id);
    AttemptAdds(before, calls[j], sp);
    assert calls[..j + 1][..j] == calls[..j];
    assert Run(store, calls[..j + 1], sp) == Step(before, calls[j], sp);
    RunOnlyAdds(store, calls, sp, id, j + 1);
    var entry := Audit(id, Attempts(store, calls[..j], sp, id) + 1, Updates(calls[j].body, sp).Keys, calls[j].admin);
    if IsLogged(before, calls[j], sp) {
      var audits := AuditsOf(Step(before, calls[j], sp).audits, id);
      assert audits[|audits| - 1] == entry;
      assert AuditsOf(Run(store, calls, sp).audits, id)[|audits| - 1] == entry;
    }
  }

  /** When nothing but the table's refusal of a value raises: a history is paired if and only if the
      table took the values of every edit that passed the checks, and it is told in any case. */
  lemma {:induction false} QuietRunIsPaired(store: Store, calls: seq<Call>, sp: Spelling, id: Id)
    requires id in store.questions && Chained(store, id)
    requires forall j :: 0 <= j < |calls| ==> calls[j].halt == NoHalt
    ensures var after := Run(store, calls, sp);
            && id in after.questions && IsTold(after, id)
            && (IsPaired(after, id) <==>
                  forall j :: 0 <= j < |calls| && calls[j].id == id
                              && EditFault(Run(store, calls[..j], sp), id, calls[j].body, sp).None?
                              ==> IsStorable(Updates(calls[j].body, sp)))
  {
    hide IsHistory, IsPaired, IsTold, Of, Step, Updates, IsStorable, EditFault, KeepsPairs, KeepsTold;
    RunKeepsHistory(store, calls, sp, id);
    forall j | 0 <= j < |calls|
      ensures id in Run(store, calls[..j], sp).questions
      ensures KeepsTold(Run(store, calls[..j], sp), calls[j], sp, id)
      ensures KeepsPairs(Run(store, calls[..j], sp), calls[j], sp, id) <==>
        (calls[j].id == id && EditFault(Run(store, calls[..j], sp), id, calls[j].body, sp).None?
         ==> IsStorable(Updates(calls[j].body, sp)))
    {
      RunKeepsHistory(store, calls[..j], sp, id);
      QuietStep(Run(store, calls[..j], sp), calls[j], sp, id);
    }
  }

  lemma {:induction false} QuietStep(store: Store, call: Call, sp: Spelling, id: Id)
    requires call.halt == NoHalt && id in store.questions
    ensures KeepsTold(store, call, sp, id)
    ensures KeepsPairs(store, call, sp, id)
        <==> (call.id == id && EditFault(store, id, call.body, sp).None? ==> IsStorable(Updates(call.body, sp)))
  {
    hide Updates, IsStorable, EditFault;
    NothingIsStorable();
  }

  /** How many edits updated the question. */
  function Writes(store: Store, calls: seq<Call>, sp: Spelling, id: Id): nat {
    if calls == [] then 0
    else
      var last := calls[|calls| - 1];
      Writes(store, calls[..|calls| - 1], sp, id)
      + if last.id == id && IsWritten(Run(store, calls[..|calls| - 1], sp), last, sp) then 1 else 0
  }

  /** What the table makes of an update is as fit as the update. */
  lemma StoredFits(content: Content, updates: Content)
    ensures AnswerFits(content + Stored(updates)) == AnswerFits(content + updates)
  {
    var (a, b) := (content + Stored(updates), content + updates);
    assert At(a, Options) == At(b, Options) && At(a, Answer) == At(b, Answer);
  }

  /** Once an edit has updated the question its answer fits the options; a question whose answer
      fits keeps one that does through any run. */
  lemma {:induction false} AnswersStayFit(store: Store, calls: seq<Call>, sp: Spelling, id: Id)
    requires id in store.questions
    ensures id in Run(store, calls, sp).questions
    ensures AnswerFits(store.questions[id]) || Writes(store, calls, sp, id) > 0
        ==> AnswerFits(Run(store, calls, sp).questions[id])
  {
    hide AnswerFits, Updates, Stored, IsStorable, Snapshot, MaxVersion;
    if calls != [] {
      var (init, last) := (calls[..|calls| - 1], calls[|calls| - 1]);
      AnswersStayFit(store, init, sp, id);
      var before := Run(store, init, sp);
      StoredFits(before.questions[id], Updates(last.body, sp));
    }
  }

  // ---------------------------------------------------------------------------------------
  // Histories that are not paired, or not told

  /** A request that passes the checks with a value that the table refuses stores a version, leaves
      the question as it is, writes no audit entry and reports an error. */
  lemma {:induction false} RefusedValueIsUnlogged(store: Store, call: Call, sp: Spelling)
    requires EditFault(store, call.id, call.body, sp).None? && call.halt != BeforeVersion
    requires !IsStorable(Updates(call.body, sp))
    ensures IsAttempt(store, call, sp) && !IsLogged(store, call, sp)
    ensures var (after, r) := Patched(store, call, sp);
            && r == Raised && after.questions == store.questions && after.audits == store.audits
            && |after.versions| == |store.versions| + 1
  {
    hide AnswerFits, OptionsFault, Snapshot, MaxVersion, IsStorable, Updates;
    NothingIsStorable();
    assert store.questions[call.id := store.questions[call.id]] == store.questions;
  }

  lemma NothingIsStorable()
    ensures IsStorable(map[])
  {
  }

  const NO_REQUEST := Request(None, None, None, None, None, None, None, None, None)

  /** A skill tag of more than forty characters, the last of them no space, is such a value. */
  lemma {:induction false} LongTagIsRefused(tag: string, sp: Spelling)
    requires !IsNarrow(tag)
    ensures !IsStorable(Updates(NO_REQUEST.(skill := Some(tag)), sp))
    ensures Updates(NO_REQUEST.(skill := Some(tag)), sp) == map[Skill := Str(tag)]
  {
    var updates := Updates(NO_REQUEST.(skill := Some(tag)), sp);
    assert updates == map[Skill := Str(tag)];
    assert !CanStore(Skill, updates[Skill]);
  }

  /** Every question has the answer it has when a tag is all that is given. */
  lemma TagPasses(content: Content, tag: string)
    ensures AnswerFits(content + map[Skill := Str(tag)]) == AnswerFits(content)
  {
    var after := content + map[Skill := Str(tag)];
    assert At(after, Options) == At(content, Options) && At(after, Answer) == At(content, Answer);
  }

  /** From a question without versions: a long tag, and then a good edit, leave two versions and one
      audit entry, for the second. */
  lemma {:induction false} LongTagBreaksPairs(content: Content, tag: string, good: string, sp: Spelling)
    requires AnswerFits(content) && !IsNarrow(tag) && IsText(good) && |good| <= WIDTH
    ensures var start := Store(map["q" := content], [], []);
            var calls := [Call("q", NO_REQUEST.(skill := Some(tag)), "a", NoHalt),
                          Call("q", NO_REQUEST.(skill := Some(good)), "a", NoHalt)];
            && Chained(start, "q")
            && var after := Run(start, calls, sp);
               && after.versions == [Version("q", 1, Snapshot(content), "a"), Version("q", 2, Snapshot(content), "a")]
               && after.audits == [Audit("q", 2, {Skill}, "a")]
               && !IsPaired(after, "q")
  {
    hide Updates, AnswerFits, IsStorable, Snapshot, Stored, OptionsFault, Step, MaxVersion, Of, AuditsOf, IsHistory, IsTold;
    var start := Store(map["q" := content], [], []);
    var a := Call("q", NO_REQUEST.(skill := Some(tag)), "a", NoHalt);
    var b := Call("q", NO_REQUEST.(skill := Some(good)), "a", NoHalt);
    StartsChained(start.questions, "q");
    LongTagStep(start, a, content, tag, sp);
    var s1 := Step(start, a, sp);
    GoodTagStep(s1, b, content, good, sp);
    var s2 := Step(s1, b, sp);
    assert [a, b][..1] == [a] && [a][..0] == [];
    assert Run(start, [a], sp) == s1 && Run(start, [a, b], sp) == s2;
    OneEntryIsFew(s2.versions, s2.audits);
  }

  lemma {:induction false} LongTagStep(store: Store, call: Call, content: Content, tag: string, sp: Spelling)
    requires store == Store(map["q" := content], [], []) && AnswerFits(content) && !IsNarrow(tag)
    requires call == Call("q", NO_REQUEST.(skill := Some(tag)), "a", NoHalt)
    ensures Step(store, call, sp) == Store(store.questions, [Version("q", 1, Snapshot(content), "a")], [])
  {
    hide Updates, AnswerFits, IsStorable, Snapshot, OptionsFault;
    LongTagIsRefused(tag, sp);
    TagPasses(content, tag);
    RefusedValueIsUnlogged(store, call, sp);
    assert MaxVersion([], "q") == 0;
  }

  lemma {:induction false} GoodTagStep(store: Store, call: Call, content: Content, tag: string, sp: Spelling)
    requires store == Store(map["q" := content], [Version("q", 1, Snapshot(content), "a")], [])
    requires AnswerFits(content) && IsText(tag) && |tag| <= WIDTH
    requires call == Call("q", NO_REQUEST.(skill := Some(tag)), "a", NoHalt)
    ensures var after := Step(store, call, sp);
            && after.versions == [Version("q", 1, Snapshot(content), "a"), Version("q", 2, Snapshot(content), "a")]
            && after.audits == [Audit("q", 2, {Skill}, "a")]
  {
    hide Updates, AnswerFits, IsStorable, Snapshot, Stored, OptionsFault;
    GoodTagIsStored(tag, sp);
    TagPasses(content, tag);
    OfOneMore([], store.versions[0], "q");
    assert [] + [store.versions[0]] == store.versions;
    assert MaxVersion([], "q") == 0;
    assert map[Skill := Str(tag)].Keys == {Skill};
  }

  lemma OneEntryIsFew(versions: seq<Version>, audits: seq<Audit>)
    requires |versions| == 2 && |audits| == 1 && versions[0].question == versions[1].question == "q"
    ensures !ArePaired(Of(versions, "q"), AuditsOf(audits, "q"))
  {
    OfOneMore([], versions[0], "q");
    OfOneMore([versions[0]], versions[1], "q");
    assert [] + [versions[0]] == [versions[0]] && [versions[0]] + [versions[1]] == versions;
    AuditsOfOneMore([], audits[0], "q");
    assert [] + [audits[0]] == audits;
  }

  lemma {:induction false} GoodTagIsStored(tag: string, sp: Spelling)
    requires IsText(tag) && |tag| <= WIDTH
    ensures IsStorable(Updates(NO_REQUEST.(skill := Some(tag)), sp))
    ensures Updates(NO_REQUEST.(skill := Some(tag)), sp) == map[Skill := Str(tag)]
  {
    assert Updates(NO_REQUEST.(skill := Some(tag)), sp) == map[Skill := Str(tag)];
  }

  /** And an exception between the update and the audit entry changes the question untold. */
  lemma {:induction false} LostAuditIsUntold(content: Content, tag: string, sp: Spelling)
    requires AnswerFits(content) && IsText(tag) && |tag| <= WIDTH && At(content, Skill) != Str(tag)
    ensures var start := Store(map["q" := content], [], []);
            var call := Call("q", NO_REQUEST.(skill := Some(tag)), "a", BeforeAudit);
            Chained(start, "q") && "q" in Run(start, [call], sp).questions && !IsTold(Run(start, [call], sp), "q")
  {
    hide Updates, AnswerFits, IsStorable, Snapshot, OptionsFault, IsHistory, IsPaired, IsTold, Of, AuditsOf, MaxVersion;
    var start := Store(map["q" := content], [], []);
    var call := Call("q", NO_REQUEST.(skill := Some(tag)), "a", BeforeAudit);
    StartsChained(start.questions, "q");
    GoodTagIsStored(tag, sp);
    TagPasses(content, tag);
    assert [call][..0] == [];
    RunKeepsHistory(start, [call], sp, "q");
    assert Run(start, [], sp) == start;
    assert At(content + Stored(map[Skill := Str(tag)]), Skill) == Str(tag);
    assert !KeepsTold(start, call, sp, "q");
    assert !KeepsTold(Run(start, [call][..0], sp), [call][0], sp, "q");
  }
}
