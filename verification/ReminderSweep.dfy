/** The daily sweep of scripts/sweep_plan_reminders.py, with the two outbox calls of
    app/notifications/repository.py:97-139. The tables stand still during one sweep. */
module ReminderSweep {
  import opened Wrappers
  import Text

  type Id = string
  type Date = string

  datatype Task = Task(status: string, title: string, tag: string, skill: string)
  datatype Day = Day(date: Date, tasks: seq<Task>)
  type Plan = seq<seq<Day>>
  datatype User = User(email: string, fullName: string, wantsReminders: bool, isActive: bool)
  datatype Reminder = Reminder(user: Id, date: Date, email: string, name: Option<string>, count: nat, titles: seq<string>)
  datatype Stats = Stats(entitled: nat, eligible: nat, unfinished: nat, enqueued: nat, existing: nat, noEmail: nat)

  /** What the insert of one reminder comes to: a failed one leaves no row, and of one whose reply
      is lost the row stays although the call reports failure. */
  datatype Insertion = Works | Fails | LosesReply

  /** The rows a sweep reads: the user ids of the active subscriptions to the full programme, as
      the filtered query answers page by page, the users, and their plans. */
  datatype Tables = Tables(pages: seq<seq<Id>>, users: map<Id, User>, plans: map<Id, Option<Plan>>)

  const PAGE: nat := 200

  // ---------------------------------------------------------------------------------------
  // Paging, removing doubles, cutting into chunks

  /** The first mention of each id that is not empty. */
  function Firsts(ids: seq<Id>): (r: seq<Id>)
    ensures forall u :: u in r <==> u in ids && u != ""
    ensures forall i, j :: 0 <= i < j < |r| ==> r[i] != r[j]
  {
    if ids == [] then []
    else
      var (rest, last) := (Firsts(ids[..|ids| - 1]), ids[|ids| - 1]);
      assert ids == ids[..|ids| - 1] + [last];
      if last == "" || last in rest then rest else rest + [last]
  }

  function NonEmptyIds(ids: seq<Id>): (r: seq<Id>)
    ensures forall u :: u in r <==> u in ids && u != ""
  {
    if ids == [] then []
    else
      assert ids == ids[..|ids| - 1] + [ids[|ids| - 1]];
      NonEmptyIds(ids[..|ids| - 1]) + if ids[|ids| - 1] == "" then [] else [ids[|ids| - 1]]
  }

  lemma {:induction false} FirstsOfNonEmpty(ids: seq<Id>)
    ensures Firsts(NonEmptyIds(ids)) == Firsts(ids)
  {
    if ids != [] {
      var (init, last) := (ids[..|ids| - 1], ids[|ids| - 1]);
      FirstsOfNonEmpty(init);
      var kept := NonEmptyIds(init);
      assert kept + [] == kept && (kept + [last])[..|kept|] == kept;
    }
  }

  function Concat(chunks: seq<seq<Id>>): seq<Id> {
    if chunks == [] then [] else Concat(chunks[..|chunks| - 1]) + chunks[|chunks| - 1]
  }

  /** Whatever each query of a page answers: full pages, and then one that is not. */
  predicate ArePages(pages: seq<seq<Id>>) {
    && pages != []
    && |pages[|pages| - 1]| < PAGE
    && forall k :: 0 <= k < |pages| - 1 ==> |pages[k]| == PAGE
  }

  /** _active_fsp_user_ids: reads page after page up to the first that is not full. */
  method EntitledUsers(pages: seq<seq<Id>>) returns (out: seq<Id>)
    requires ArePages(pages)
    ensures out == Firsts(Concat(pages))
  {
    hide Firsts, Concat, NonEmptyIds;
    var ids := AllIds(pages);
    FirstsOfNonEmpty(Concat(pages));
    var seen: set<Id> := {};
    out := [];
    FirstsOfNothing();
    for i := 0 to |ids|
      invariant out == Firsts(ids[..i])
      invariant seen == set u | u in out
    {
      FirstsOfOneMore(ids, i);
      assert ids[i] in ids;
      if ids[i] !in seen {
        seen := seen + {ids[i]};
        out := out + [ids[i]];
      }
    }
    assert ids[..|ids|] == ids;
  }

  lemma FirstsOfNothing()
    ensures Firsts([]) == []
  {
  }

  lemma FirstsOfOneMore(ids: seq<Id>, i: nat)
    requires i < |ids|
    ensures var before := Firsts(ids[..i]);
            Firsts(ids[..i + 1]) == if ids[i] == "" || ids[i] in before then before else before + [ids[i]]
  {
    assert ids[..i + 1][..i] == ids[..i];
  }

  method AllIds(pages: seq<seq<Id>>) returns (ids: seq<Id>)
    requires ArePages(pages)
    ensures ids == NonEmptyIds(Concat(pages))
  {
    ids := [];
    var read := 0;
    var last := false;
    while !last
      invariant read <= |pages|
      invariant last <==> read == |pages|
      invariant ids == NonEmptyIds(Concat(pages[..read]))
      decreases |pages| - read
    {
      var page := pages[read];
      ghost var before := Concat(pages[..read]);
      assert before + page[..0] == before;
      for i := 0 to |page|
        invariant ids == NonEmptyIds(before + page[..i])
      {
        assert (before + page[..i + 1])[..|before| + i] == before + page[..i];
        if page[i] != "" {
          ids := ids + [page[i]];
        }
      }
      assert page[..|page|] == page;
      assert pages[..read + 1][..read] == pages[..read];
      read := read + 1;
      last := |page| < PAGE;
    }
    assert pages[..|pages|] == pages;
  }

  /** _chunked: every item once, in order, in chunks of at most the given size. */
  method Chunked(items: seq<Id>, size: nat) returns (chunks: seq<seq<Id>>)
    requires size > 0
    ensures Concat(chunks) == items
    ensures forall k :: 0 <= k < |chunks| ==> 0 < |chunks[k]| <= size
    ensures forall k :: 0 <= k < |chunks| - 1 ==> |chunks[k]| == size
  {
    chunks := [];
    var i := 0;
    while i < |items|
      invariant i <= |items|
      invariant Concat(chunks) == items[..i]
      invariant forall k :: 0 <= k < |chunks| ==> 0 < |chunks[k]| <= size
      invariant i < |items| ==> forall k :: 0 <= k < |chunks| ==> |chunks[k]| == size
      invariant forall k :: 0 <= k < |chunks| - 1 ==> |chunks[k]| == size
    {
      var end := if i + size < |items| then i + size else |items|;
      var was := chunks;
      chunks := chunks + [items[i..end]];
      assert chunks[..|chunks| - 1] == was;
      i := end;
    }
    assert items[..|items|] == items;
  }

  // ---------------------------------------------------------------------------------------
  // Unfinished tasks

  predicate IsUnfinished(task: Task) {
    Text.LowerText(task.status) != "done" && Text.LowerText(task.status) != "skipped"
  }

  function UnfinishedOf(tasks: seq<Task>): seq<Task> {
    if tasks == [] then []
    else UnfinishedOf(tasks[..|tasks| - 1]) + if IsUnfinished(tasks[|tasks| - 1]) then [tasks[|tasks| - 1]] else []
  }

  /** All days of a plan in order. */
  function Days(plan: Plan): seq<Day> {
    if plan == [] then [] else Days(plan[..|plan| - 1]) + plan[|plan| - 1]
  }

  predicate HasDay(days: seq<Day>, today: Date) { exists i :: 0 <= i < |days| && days[i].date == today }

  /** Only the first day with today's date counts. */
  function TodaysTasks(days: seq<Day>, today: Date): seq<Task> {
    if days == [] then []
    else if HasDay(days[..|days| - 1], today) then TodaysTasks(days[..|days| - 1], today)
    else if days[|days| - 1].date == today then UnfinishedOf(days[|days| - 1].tasks)
    else []
  }

  function Unfinished(plan: Option<Plan>, today: Date): seq<Task> {
    if plan.None? then [] else TodaysTasks(Days(plan.value), today)
  }

  lemma {:induction false} LaterDaysDoNotCount(days: seq<Day>, more: seq<Day>, today: Date)
    requires HasDay(days, today)
    ensures HasDay(days + more, today) && TodaysTasks(days + more, today) == TodaysTasks(days, today)
  {
    var i :| 0 <= i < |days| && days[i].date == today;
    assert (days + more)[i].date == today;
    if more == [] {
      assert days + more == days;
    } else {
      LaterDaysDoNotCount(days, more[..|more| - 1], today);
      assert (days + more)[..|days + more| - 1] == days + more[..|more| - 1];
    }
  }

  lemma {:induction false} PlanStarts(plan: Plan, k: nat)
    requires k <= |plan|
    ensures exists more :: Days(plan) == Days(plan[..k]) + more
  {
    if k == |plan| {
      assert plan[..k] == plan;
      assert Days(plan) == Days(plan) + [];
    } else {
      PlanStarts(plan[..|plan| - 1], k);
      assert plan[..|plan| - 1][..k] == plan[..k];
      var more :| Days(plan[..|plan| - 1]) == Days(plan[..k]) + more;
      assert Days(plan) == Days(plan[..k]) + (more + plan[|plan| - 1]);
    }
  }

  /** _unfinished_today_tasks. */
  method UnfinishedToday(plan: Option<Plan>, today: Date) returns (tasks: seq<Task>)
    ensures tasks == Unfinished(plan, today)
  {
    tasks := [];
    if plan.None? {
      return;
    }
    var weeks := plan.value;
    for w := 0 to |weeks|
      invariant !HasDay(Days(weeks[..w]), today)
    {
      assert weeks[..w + 1][..w] == weeks[..w];
      for d := 0 to |weeks[w]|
        invariant !HasDay(Days(weeks[..w]) + weeks[w][..d], today)
      {
        ghost var before := Days(weeks[..w]) + weeks[w][..d];
        if weeks[w][d].date == today {
          tasks := UnfinishedTasks(weeks[w][d].tasks);
          DayIsFound(weeks, w, d, today);
          return;
        }
        assert Days(weeks[..w]) + weeks[w][..d + 1] == before + [weeks[w][d]];
      }
      assert weeks[w][..|weeks[w]|] == weeks[w];
    }
    assert weeks[..|weeks|] == weeks;
    NoDayNoTasks(Days(weeks), today);
  }

  method UnfinishedTasks(tasks: seq<Task>) returns (left: seq<Task>)
    ensures left == UnfinishedOf(tasks)
  {
    left := [];
    for i := 0 to |tasks|
      invariant left == UnfinishedOf(tasks[..i])
    {
      assert tasks[..i + 1][..i] == tasks[..i];
      if IsUnfinished(tasks[i]) {
        left := left + [tasks[i]];
      }
    }
    assert tasks[..|tasks|] == tasks;
  }

  lemma DayIsFound(weeks: Plan, w: nat, d: nat, today: Date)
    requires w < |weeks| && d < |weeks[w]| && weeks[w][d].date == today
    requires !HasDay(Days(weeks[..w]) + weeks[w][..d], today)
    ensures TodaysTasks(Days(weeks), today) == UnfinishedOf(weeks[w][d].tasks)
  {
    var before := Days(weeks[..w]) + weeks[w][..d];
    var upTo := before + [weeks[w][d]];
    assert upTo[..|upTo| - 1] == before;
    assert upTo[|before|].date == today;
    assert weeks[..w + 1][..w] == weeks[..w];
    assert Days(weeks[..w + 1]) == upTo + weeks[w][d + 1..];
    PlanStarts(weeks, w + 1);
    var more :| Days(weeks) == Days(weeks[..w + 1]) + more;
    assert Days(weeks) == upTo + (weeks[w][d + 1..] + more);
    LaterDaysDoNotCount(upTo, weeks[w][d + 1..] + more, today);
  }

  lemma {:induction false} NoDayNoTasks(days: seq<Day>, today: Date)
    requires !HasDay(days, today)
    ensures TodaysTasks(days, today) == []
  {
  }

  // ---------------------------------------------------------------------------------------
  // One user

  predicate IsEligible(tables: Tables, u: Id) {
    u in tables.users && tables.users[u].wantsReminders && tables.users[u].isActive
  }

  /** Whether the sweep comes to ask the outbox about a user. */
  predicate IsDue(tables: Tables, u: Id, today: Date) {
    && IsEligible(tables, u) && u in tables.plans
    && Text.Strip(tables.users[u].email) != ""
    && Unfinished(tables.plans[u], today) != []
  }

  predicate IsReminded(outbox: seq<Reminder>, u: Id, date: Date) {
    exists i :: 0 <= i < |outbox| && outbox[i].user == u && outbox[i].date == date
  }

  function TitleOf(task: Task): string {
    if task.title != "" then task.title
    else if task.tag != "" then task.tag
    else if task.skill != "" then task.skill
    else "Practice"
  }

  function Titles(tasks: seq<Task>): (r: seq<string>)
    ensures |r| == |tasks|
  {
    seq(|tasks|, i requires 0 <= i < |tasks| => TitleOf(tasks[i]))
  }

  function FirstFive(titles: seq<string>): seq<string> { if |titles| <= 5 then titles else titles[..5] }

  function ReminderFor(tables: Tables, u: Id, today: Date): Reminder
    requires IsDue(tables, u, today)
  {
    var user := tables.users[u];
    var tasks := Unfinished(tables.plans[u], today);
    var name := Text.Strip(user.fullName);
    Reminder(u, today, Text.LowerText(Text.Strip(user.email)), if name == "" then None else Some(name),
             |tasks|, FirstFive(Titles(tasks)))
  }

  datatype Progress = Progress(outbox: seq<Reminder>, stats: Stats)

  /** What a sweep does about one entitled user, apart from counting the eligible ones. */
  function Visited(p: Progress, tables: Tables, today: Date, dry: bool, insert: Id -> Insertion, u: Id): Progress {
    var s := p.stats;
    if !IsEligible(tables, u) || u !in tables.plans then p
    else if Text.Strip(tables.users[u].email) == "" then p.(stats := s.(noEmail := s.noEmail + 1))
    else if !IsDue(tables, u, today) then p
    else
      var t := s.(unfinished := s.unfinished + 1);
      if IsReminded(p.outbox, u, today) then p.(stats := t.(existing := t.existing + 1))
      else if dry then p.(stats := t.(enqueued := t.enqueued + 1))
      else
        Progress(if insert(u) == Fails then p.outbox else p.outbox + [ReminderFor(tables, u, today)],
                 if insert(u) == Works then t.(enqueued := t.enqueued + 1) else t.(existing := t.existing + 1))
  }

  function VisitedAll(p: Progress, tables: Tables, today: Date, dry: bool, insert: Id -> Insertion, ids: seq<Id>)
    : Progress
  {
    if ids == [] then p
    else Visited(VisitedAll(p, tables, today, dry, insert, ids[..|ids| - 1]), tables, today, dry, insert, ids[|ids| - 1])
  }

  function Eligible(tables: Tables, ids: seq<Id>): seq<Id> {
    if ids == [] then []
    else Eligible(tables, ids[..|ids| - 1]) + if IsEligible(tables, ids[|ids| - 1]) then [ids[|ids| - 1]] else []
  }

  function Planned(tables: Tables, ids: seq<Id>): seq<Id> {
    if ids == [] then []
    else Planned(tables, ids[..|ids| - 1]) + if ids[|ids| - 1] in tables.plans then [ids[|ids| - 1]] else []
  }

  /** The entitled users. */
  function Entitled(tables: Tables): seq<Id> { Firsts(Concat(tables.pages)) }

  /** An order in which the profile queries may answer: every eligible user with a plan once. */
  predicate IsOrder(tables: Tables, order: seq<Id>) {
    multiset(order) == multiset(Planned(tables, Eligible(tables, Entitled(tables))))
  }

  /** A whole sweep: those users one after the other. */
  function Swept(outbox: seq<Reminder>, tables: Tables, today: Date, dry: bool, insert: Id -> Insertion, order: seq<Id>)
    : Progress
  {
    var p := VisitedAll(Progress(outbox, Stats(|Entitled(tables)|, 0, 0, 0, 0, 0)), tables, today, dry, insert, order);
    p.(stats := p.stats.(eligible := |Eligible(tables, Entitled(tables))|))
  }

  lemma {:induction false} EligibleHas(tables: Tables, ids: seq<Id>, u: Id)
    ensures u in Eligible(tables, ids) <==> u in ids && IsEligible(tables, u)
  {
    hide IsEligible;
    if ids != [] {
      EligibleHas(tables, ids[..|ids| - 1], u);
      assert ids == ids[..|ids| - 1] + [ids[|ids| - 1]];
    }
  }

  lemma {:induction false} PlannedHas(tables: Tables, ids: seq<Id>, u: Id)
    ensures u in Planned(tables, ids) <==> u in ids && u in tables.plans
  {
    if ids != [] {
      PlannedHas(tables, ids[..|ids| - 1], u);
      assert ids == ids[..|ids| - 1] + [ids[|ids| - 1]];
    }
  }

  /** Who is visited. */
  lemma {:induction false} OrderHas(tables: Tables, order: seq<Id>, u: Id)
    requires IsOrder(tables, order)
    ensures u in order <==> u in Concat(tables.pages) && u != "" && IsEligible(tables, u) && u in tables.plans
  {
    hide IsEligible, Planned, Eligible, Concat;
    var ids := Entitled(tables);
    EligibleHas(tables, ids, u);
    PlannedHas(tables, Eligible(tables, ids), u);
    assert u in order <==> u in multiset(order);
    assert u in Planned(tables, Eligible(tables, ids)) <==> u in multiset(Planned(tables, Eligible(tables, ids)));
  }

  lemma {:induction false} SinglesStay(tables: Tables, ids: seq<Id>, u: Id)
    requires forall i, j :: 0 <= i < j < |ids| ==> ids[i] != ids[j]
    ensures multiset(Eligible(tables, ids))[u] <= 1
    ensures multiset(Planned(tables, Eligible(tables, ids)))[u] <= 1
  {
    hide IsEligible;
    if ids != [] {
      var (init, last) := (ids[..|ids| - 1], ids[|ids| - 1]);
      SinglesStay(tables, init, u);
      EligibleHas(tables, init, last);
      PlannedHas(tables, Eligible(tables, init), last);
      var kept := Eligible(tables, init);
      assert (kept + [last])[..|kept|] == kept;
      assert kept + [] == kept;
    }
  }

  /** And nobody is visited twice. */
  lemma {:induction false} OrderIsSingle(tables: Tables, order: seq<Id>, i: nat, j: nat)
    requires IsOrder(tables, order) && i < j < |order|
    ensures order[i] != order[j]
  {
    hide Planned, Eligible, Entitled;
    SinglesOfFirsts(tables, order[i]);
    if order[i] == order[j] {
      TwiceMeansTwo(order, i, j);
    }
  }

  lemma {:induction false} SinglesOfFirsts(tables: Tables, u: Id)
    ensures multiset(Planned(tables, Eligible(tables, Entitled(tables))))[u] <= 1
  {
    hide Planned, Eligible, Concat;
    SinglesStay(tables, Entitled(tables), u);
  }

  lemma {:induction false} TwiceMeansTwo(order: seq<Id>, i: nat, j: nat)
    requires i < j < |order| && order[i] == order[j]
    ensures multiset(order)[order[i]] >= 2
  {
    assert order == order[..j] + [order[j]] + order[j + 1..];
    assert order[i] in order[..j];
    assert multiset(order) == multiset(order[..j]) + multiset{order[j]} + multiset(order[j + 1..]);
  }

  lemma {:induction false} VisitedInParts(p: Progress, tables: Tables, today: Date, dry: bool,
                                          insert: Id -> Insertion, a: seq<Id>, b: seq<Id>)
    ensures VisitedAll(p, tables, today, dry, insert, a + b)
         == VisitedAll(VisitedAll(p, tables, today, dry, insert, a), tables, today, dry, insert, b)
    ensures Eligible(tables, a + b) == Eligible(tables, a) + Eligible(tables, b)
    ensures Planned(tables, a + b) == Planned(tables, a) + Planned(tables, b)
  {
    hide Visited, IsEligible;
    if b == [] {
      assert a + b == a;
    } else {
      VisitedInParts(p, tables, today, dry, insert, a, b[..|b| - 1]);
      assert (a + b)[..|a + b| - 1] == a + b[..|b| - 1];
    }
  }

  class Outbox {
    var rows: seq<Reminder>

    constructor ()
      ensures rows == []
    {
      rows := [];
    }

    /** already_enqueued_plan_reminder. */
    method Already(u: Id, date: Date) returns (found: bool)
      ensures found == IsReminded(rows, u, date)
    {
      found := exists i :: 0 <= i < |rows| && rows[i].user == u && rows[i].date == date;
    }

    /** enqueue_plan_reminder. */
    method Enqueue(r: Reminder, insertion: Insertion) returns (created: bool)
      modifies this
      ensures IsReminded(old(rows), r.user, r.date) ==> !created && rows == old(rows)
      ensures !IsReminded(old(rows), r.user, r.date) ==>
        created == (insertion == Works) && rows == if insertion == Fails then old(rows) else old(rows) + [r]
    {
      var found := Already(r.user, r.date);
      if found {
        return false;
      }
      if insertion != Fails {
        rows := rows + [r];
      }
      created := insertion == Works;
    }

    /** The profiles of some users, in whatever order. */
    method Profiles(tables: Tables, users: seq<Id>) returns (profiles: seq<Id>)
      ensures multiset(profiles) == multiset(Planned(tables, users))
    {
      profiles := Planned(tables, users);
    }

    /** sweep: pages, chunks and queries together visit every eligible user with a plan once. */
    method Sweep(tables: Tables, today: Date, dry: bool, insert: Id -> Insertion)
      returns (stats: Stats, ghost order: seq<Id>)
      requires ArePages(tables.pages)
      modifies this
      ensures IsOrder(tables, order)
      ensures Progress(rows, stats) == Swept(old(rows), tables, today, dry, insert, order)
    {
      hide Visited, Eligible, Planned, IsEligible, Firsts;
      var entitled := EntitledUsers(tables.pages);
      stats, order := Stats(|entitled|, 0, 0, 0, 0, 0), [];
      ghost var start := Progress(rows, stats);
      var chunks := Chunked(entitled, PAGE);
      NobodyEligible(tables);
      for c := 0 to |chunks|
        invariant var done := Concat(chunks[..c]);
                  && Progress(rows, stats.(eligible := 0)) == VisitedAll(start, tables, today, dry, insert, order)
                  && stats.eligible == |Eligible(tables, done)|
                  && multiset(order) == multiset(Planned(tables, Eligible(tables, done)))
      {
        ghost var before := Progress(rows, stats.(eligible := 0));
        var users := Eligible(tables, chunks[c]);
        stats := stats.(eligible := stats.eligible + |users|);
        var profiles := Profiles(tables, users);
        ghost var counted := stats.eligible;
        for i := 0 to |profiles|
          invariant stats.eligible == counted
          invariant Progress(rows, stats.(eligible := 0))
                 == VisitedAll(before, tables, today, dry, insert, profiles[..i])
        {
          assert profiles[..i + 1][..i] == profiles[..i];
          ProfileMatches(tables, chunks[c], profiles, i);
          stats := Visit(tables, today, dry, insert, profiles[i], stats);
        }
        assert profiles[..|profiles|] == profiles;
        assert chunks[..c + 1][..c] == chunks[..c];
        VisitedInParts(start, tables, today, dry, insert, order, profiles);
        VisitedInParts(start, tables, today, dry, insert, Concat(chunks[..c]), chunks[c]);
        VisitedInParts(start, tables, today, dry, insert, Eligible(tables, Concat(chunks[..c])), users);
        order := order + profiles;
      }
      assert chunks[..|chunks|] == chunks;
    }

    /** The body of its inner loop, for a user that both queries returned. */
    method Visit(tables: Tables, today: Date, dry: bool, insert: Id -> Insertion, u: Id, stats: Stats)
      returns (after: Stats)
      requires IsEligible(tables, u) && u in tables.plans
      modifies this
      ensures after.eligible == stats.eligible
      ensures Progress(rows, after.(eligible := 0))
           == Visited(Progress(old(rows), stats.(eligible := 0)), tables, today, dry, insert, u)
    {
      after := stats;
      var user := tables.users[u];
      if Text.Strip(user.email) == "" {
        after := after.(noEmail := after.noEmail + 1);
        return;
      }
      var tasks := UnfinishedToday(tables.plans[u], today);
      if tasks == [] {
        return;
      }
      after := after.(unfinished := after.unfinished + 1);
      var found := Already(u, today);
      if found {
        after := after.(existing := after.existing + 1);
        return;
      }
      if dry {
        after := after.(enqueued := after.enqueued + 1);
        return;
      }
      var name := Text.Strip(user.fullName);
      var created := Enqueue(Reminder(u, today, Text.LowerText(Text.Strip(user.email)),
                                      if name == "" then None else Some(name), |tasks|, FirstFive(Titles(tasks))),
                             insert(u));
      if created {
        after := after.(enqueued := after.enqueued + 1);
      } else {
        after := after.(existing := after.existing + 1);
      }
    }
  }

  lemma NobodyEligible(tables: Tables)
    ensures Eligible(tables, []) == [] && Planned(tables, []) == []
  {
  }

  lemma {:induction false} ProfileMatches(tables: Tables, chunk: seq<Id>, profiles: seq<Id>, i: nat)
    requires i < |profiles| && multiset(profiles) == multiset(Planned(tables, Eligible(tables, chunk)))
    ensures IsEligible(tables, profiles[i]) && profiles[i] in tables.plans
  {
    hide IsEligible, Eligible, Planned;
    assert profiles[i] in multiset(profiles);
    PlannedHas(tables, Eligible(tables, chunk), profiles[i]);
    EligibleHas(tables, chunk, profiles[i]);
  }

  // ---------------------------------------------------------------------------------------
  // Who is reminded

  lemma {:induction false} VisitsBalance(p: Progress, tables: Tables, today: Date, dry: bool, insert: Id -> Insertion,
                                         ids: seq<Id>)
    requires p.stats.unfinished == p.stats.enqueued + p.stats.existing
    ensures var s := VisitedAll(p, tables, today, dry, insert, ids).stats; s.unfinished == s.enqueued + s.existing
  {
    hide IsEligible, IsDue, IsReminded;
    if ids != [] {
      VisitsBalance(p, tables, today, dry, insert, ids[..|ids| - 1]);
    }
  }

  /** Every user with unfinished tasks is counted once more, as enqueued or as skipped. */
  lemma {:induction false} SweepBalances(outbox: seq<Reminder>, tables: Tables, today: Date, dry: bool,
                                         insert: Id -> Insertion, order: seq<Id>)
    ensures var s := Swept(outbox, tables, today, dry, insert, order).stats; s.unfinished == s.enqueued + s.existing
  {
    hide VisitedAll;
    VisitsBalance(Progress(outbox, Stats(|Entitled(tables)|, 0, 0, 0, 0, 0)), tables, today, dry, insert, order);
  }

  lemma RemindedOfOneMore(outbox: seq<Reminder>, r: Reminder, u: Id, date: Date)
    ensures IsReminded(outbox + [r], u, date) <==> IsReminded(outbox, u, date) || (r.user == u && r.date == date)
  {
    if IsReminded(outbox, u, date) {
      var i :| 0 <= i < |outbox| && outbox[i].user == u && outbox[i].date == date;
      assert (outbox + [r])[i] == outbox[i];
    }
    if r.user == u && r.date == date {
      assert (outbox + [r])[|outbox|] == r;
    }
  }

  /** Whether visiting leaves a reminder for a user who has none. */
  predicate Gets(tables: Tables, today: Date, dry: bool, insert: Id -> Insertion, u: Id) {
    IsDue(tables, u, today) && !dry && insert(u) != Fails
  }

  lemma VisitReminds(p: Progress, tables: Tables, today: Date, dry: bool, insert: Id -> Insertion, v: Id, u: Id, date: Date)
    ensures IsReminded(Visited(p, tables, today, dry, insert, v).outbox, u, date)
        <==> IsReminded(p.outbox, u, date) || (u == v && date == today && Gets(tables, today, dry, insert, u))
  {
    hide IsReminded, IsEligible;
    if IsDue(tables, v, today) {
      RemindedOfOneMore(p.outbox, ReminderFor(tables, v, today), u, date);
    }
  }

  lemma {:induction false} VisitsRemind(p: Progress, tables: Tables, today: Date, dry: bool, insert: Id -> Insertion,
                                        ids: seq<Id>, u: Id, date: Date)
    ensures IsReminded(VisitedAll(p, tables, today, dry, insert, ids).outbox, u, date)
        <==> IsReminded(p.outbox, u, date) || (u in ids && date == today && Gets(tables, today, dry, insert, u))
  {
    hide IsReminded, Gets, Visited;
    if ids != [] {
      var (init, v) := (ids[..|ids| - 1], ids[|ids| - 1]);
      VisitsRemind(p, tables, today, dry, insert, init, u, date);
      VisitReminds(VisitedAll(p, tables, today, dry, insert, init), tables, today, dry, insert, v, u, date);
      assert ids == init + [v];
    }
  }

  /** After a sweep exactly those are reminded for a date who were before, and, for the day of the
      sweep, the entitled users with an address, the wish for reminders and unfinished tasks whose
      insert did not fail. */
  lemma {:induction false} WhoIsReminded(outbox: seq<Reminder>, tables: Tables, today: Date, dry: bool,
                                         insert: Id -> Insertion, order: seq<Id>, u: Id, date: Date)
    requires IsOrder(tables, order)
    ensures IsReminded(Swept(outbox, tables, today, dry, insert, order).outbox, u, date)
        <==> || IsReminded(outbox, u, date)
             || (date == today && u in Concat(tables.pages) && u != "" && Gets(tables, today, dry, insert, u))
  {
    hide IsReminded, VisitedAll, Entitled, IsOrder, Concat, Unfinished;
    VisitsRemind(Progress(outbox, Stats(|Entitled(tables)|, 0, 0, 0, 0, 0)), tables, today, dry, insert, order, u, date);
    OrderHas(tables, order, u);
  }

  /** No user has two reminders for one date. */
  predicate AreSingle(outbox: seq<Reminder>) {
    forall i, j :: 0 <= i < j < |outbox| ==> outbox[i].user != outbox[j].user || outbox[i].date != outbox[j].date
  }

  /** The rows that a sweep adds say what is due. */
  predicate AreDue(outbox: seq<Reminder>, from: nat, tables: Tables, today: Date) {
    forall i :: from <= i < |outbox| ==>
      IsDue(tables, outbox[i].user, today) && outbox[i] == ReminderFor(tables, outbox[i].user, today)
  }

  lemma {:induction false} VisitsAdd(p: Progress, tables: Tables, today: Date, dry: bool, insert: Id -> Insertion,
                                     ids: seq<Id>)
    ensures var after := VisitedAll(p, tables, today, dry, insert, ids).outbox;
            p.outbox <= after && AreDue(after, |p.outbox|, tables, today)
            && (AreSingle(p.outbox) ==> AreSingle(after))
  {
    hide IsEligible, IsDue, ReminderFor;
    if ids != [] {
      VisitsAdd(p, tables, today, dry, insert, ids[..|ids| - 1]);
      if IsDue(tables, ids[|ids| - 1], today) {
        ReminderIsFor(tables, ids[|ids| - 1], today);
      }
    }
  }

  lemma ReminderIsFor(tables: Tables, u: Id, today: Date)
    requires IsDue(tables, u, today)
    ensures ReminderFor(tables, u, today).user == u && ReminderFor(tables, u, today).date == today
    ensures ReminderFor(tables, u, today).count > 0 && |ReminderFor(tables, u, today).titles| <= 5
  {
  }

  datatype Call = Call(tables: Tables, today: Date, dry: bool, insert: Id -> Insertion, order: seq<Id>)

  function Run(outbox: seq<Reminder>, calls: seq<Call>): seq<Reminder> {
    if calls == [] then outbox
    else
      var c := calls[|calls| - 1];
      Swept(Run(outbox, calls[..|calls| - 1]), c.tables, c.today, c.dry, c.insert, c.order).outbox
  }

  /** Over any run of sweeps, on any days and whatever happens to the inserts, no user ever has
      two reminders for one date, and no reminder is taken back. */
  lemma {:induction false} RunKeepsSingle(outbox: seq<Reminder>, calls: seq<Call>)
    requires AreSingle(outbox)
    ensures AreSingle(Run(outbox, calls)) && outbox <= Run(outbox, calls)
  {
    hide AreSingle, VisitedAll, Entitled, AreDue;
    if calls != [] {
      var c := calls[|calls| - 1];
      RunKeepsSingle(outbox, calls[..|calls| - 1]);
      var before := Run(outbox, calls[..|calls| - 1]);
      var start := Progress(before, Stats(|Entitled(c.tables)|, 0, 0, 0, 0, 0));
      VisitsAdd(start, c.tables, c.today, c.dry, c.insert, c.order);
    }
  }

  // ---------------------------------------------------------------------------------------
  // Sweeping again

  /** Nobody among these users is due and without a reminder. */
  predicate NothingLeft(outbox: seq<Reminder>, tables: Tables, today: Date, ids: seq<Id>) {
    forall u :: u in ids && IsDue(tables, u, today) ==> IsReminded(outbox, u, today)
  }

  lemma {:induction false} NothingToDo(p: Progress, tables: Tables, today: Date, dry: bool, insert: Id -> Insertion,
                                       ids: seq<Id>)
    requires NothingLeft(p.outbox, tables, today, ids)
    ensures VisitedAll(p, tables, today, dry, insert, ids).outbox == p.outbox
    ensures VisitedAll(p, tables, today, dry, insert, ids).stats.enqueued == p.stats.enqueued
  {
    hide IsDue, IsReminded, IsEligible;
    if ids != [] {
      assert ids == ids[..|ids| - 1] + [ids[|ids| - 1]];
      NothingToDo(p, tables, today, dry, insert, ids[..|ids| - 1]);
    }
  }

  lemma {:induction false} SomethingToDo(p: Progress, tables: Tables, today: Date, insert: Id -> Insertion, ids: seq<Id>)
    ensures var after := VisitedAll(p, tables, today, true, insert, ids);
            && after.outbox == p.outbox
            && after.stats.enqueued >= p.stats.enqueued
            && (!NothingLeft(p.outbox, tables, today, ids) ==> after.stats.enqueued > p.stats.enqueued)
  {
    hide Unfinished, IsReminded, IsEligible;
    if ids != [] {
      assert ids == ids[..|ids| - 1] + [ids[|ids| - 1]];
      SomethingToDo(p, tables, today, insert, ids[..|ids| - 1]);
    }
  }

  /** No insert for an entitled user who was due and without a reminder failed. */
  ghost predicate NoneFailed(outbox: seq<Reminder>, tables: Tables, today: Date, insert: Id -> Insertion) {
    forall u :: u in Concat(tables.pages) && u != "" && IsDue(tables, u, today) && !IsReminded(outbox, u, today)
                ==> insert(u) != Fails
  }

  /** Nothing is left for a sweep in any order. */
  lemma {:induction false} NothingIsLeft(outbox: seq<Reminder>, tables: Tables, today: Date, insert: Id -> Insertion,
                                         order: seq<Id>, again: seq<Id>)
    requires IsOrder(tables, order) && IsOrder(tables, again)
    ensures NothingLeft(Swept(outbox, tables, today, false, insert, order).outbox, tables, today, again)
        <==> NoneFailed(outbox, tables, today, insert)
  {
    hide IsReminded, VisitedAll, Entitled, IsOrder, Concat, Unfinished, Swept;
    var first := Swept(outbox, tables, today, false, insert, order).outbox;
    forall u
      ensures u in again && IsDue(tables, u, today) <==> u in Concat(tables.pages) && u != "" && IsDue(tables, u, today)
      ensures u in again && IsDue(tables, u, today) ==>
        (IsReminded(first, u, today) <==> IsReminded(outbox, u, today) || insert(u) != Fails)
    {
      OrderHas(tables, again, u);
      WhoIsReminded(outbox, tables, today, false, insert, order, u, today);
    }
  }

  /** A second sweep over the same tables on the same day, in whatever order, changes nothing and
      enqueues nothing, exactly when no insert of the first one failed; a lost reply does no harm. */
  lemma {:induction false} SecondSweepIsIdle(outbox: seq<Reminder>, tables: Tables, today: Date, insert: Id -> Insertion,
                                             order: seq<Id>, other: seq<Id>)
    requires IsOrder(tables, order) && IsOrder(tables, other)
    ensures var first := Swept(outbox, tables, today, false, insert, order).outbox;
            && (NoneFailed(outbox, tables, today, insert)
                <==> Swept(first, tables, today, true, insert, other).stats.enqueued == 0)
            && (NoneFailed(outbox, tables, today, insert) ==>
                  forall again, dry :: Swept(first, tables, today, dry, again, other).outbox == first
                                    && Swept(first, tables, today, dry, again, other).stats.enqueued == 0)
  {
    hide IsDue, IsReminded, VisitedAll, Entitled, IsOrder, NothingLeft, NoneFailed;
    var first := Swept(outbox, tables, today, false, insert, order).outbox;
    var start := Progress(first, Stats(|Entitled(tables)|, 0, 0, 0, 0, 0));
    NothingIsLeft(outbox, tables, today, insert, order, other);
    SomethingToDo(start, tables, today, insert, other);
    if NothingLeft(first, tables, today, other) {
      forall again, dry ensures Swept(first, tables, today, dry, again, other).outbox == first
                             && Swept(first, tables, today, dry, again, other).stats.enqueued == 0 {
        NothingToDo(start, tables, today, dry, again, other);
      }
    }
    NothingMeansNone(start, tables, today, insert, other);
  }

  lemma {:induction false} NothingMeansNone(start: Progress, tables: Tables, today: Date, insert: Id -> Insertion,
                                            ids: seq<Id>)
    ensures NothingLeft(start.outbox, tables, today, ids) ==>
      VisitedAll(start, tables, today, true, insert, ids).stats.enqueued == start.stats.enqueued
  {
    hide NothingLeft, VisitedAll;
    if NothingLeft(start.outbox, tables, today, ids) {
      NothingToDo(start, tables, today, true, insert, ids);
    }
  }

  lemma {:induction false} DryVisits(p: Progress, tables: Tables, today: Date, insert: Id -> Insertion, ids: seq<Id>)
    requires forall u :: u in ids ==> insert(u) == Works
    requires forall i, j :: 0 <= i < j < |ids| ==> ids[i] != ids[j]
    ensures VisitedAll(p, tables, today, true, insert, ids).outbox == p.outbox
    ensures VisitedAll(p, tables, today, true, insert, ids).stats == VisitedAll(p, tables, today, false, insert, ids).stats
  {
    hide IsDue, IsReminded, IsEligible;
    if ids != [] {
      var (init, u) := (ids[..|ids| - 1], ids[|ids| - 1]);
      DryVisits(p, tables, today, insert, init);
      VisitsRemind(p, tables, today, false, insert, init, u, today);
      assert u !in init;
      assert ids == init + [u];
    }
  }

  /** A dry run writes nothing and reports just what a real one would if every insert works. */
  lemma {:induction false} DryRunPredicts(outbox: seq<Reminder>, tables: Tables, today: Date, insert: Id -> Insertion,
                                          order: seq<Id>)
    requires IsOrder(tables, order)
    requires forall u :: u in Concat(tables.pages) ==> insert(u) == Works
    ensures Swept(outbox, tables, today, true, insert, order).outbox == outbox
    ensures Swept(outbox, tables, today, true, insert, order).stats == Swept(outbox, tables, today, false, insert, order).stats
  {
    hide VisitedAll, Entitled, IsOrder, Concat, IsEligible;
    forall u | u in order ensures insert(u) == Works {
      OrderHas(tables, order, u);
    }
    forall i, j | 0 <= i < j < |order| ensures order[i] != order[j] {
      OrderIsSingle(tables, order, i, j);
    }
    DryVisits(Progress(outbox, Stats(|Entitled(tables)|, 0, 0, 0, 0, 0)), tables, today, insert, order);
  }
}
