/** What one sweep of scripts/sweep_plan_reminders.py leaves behind: the rows it adds, field by
    field, whom they are for, and its counts. */
module SweepResults {
  import opened Wrappers
  import opened ReminderSweep
  import opened Text

  // ---------------------------------------------------------------------------------------
  // Tasks

  /** Day d of week w is the first one with today's date. */
  ghost predicate IsFirstDay(plan: Plan, today: Date, w: nat, d: nat) {
    && w < |plan| && d < |plan[w]| && plan[w][d].date == today
    && (forall v, e :: 0 <= v < w && 0 <= e < |plan[v]| ==> plan[v][e].date != today)
    && (forall e :: 0 <= e < d ==> plan[w][e].date != today)
  }

  lemma {:induction false} NoSuchDay(plan: Plan, today: Date)
    requires forall v, e :: 0 <= v < |plan| && 0 <= e < |plan[v]| ==> plan[v][e].date != today
    ensures !HasDay(Days(plan), today)
  {
    if plan != [] {
      var (init, last) := (plan[..|plan| - 1], plan[|plan| - 1]);
      NoSuchDay(init, today);
      assert forall e :: 0 <= e < |last| ==> last[e].date != today;
    }
  }

  /** Only the tasks of the first day with today's date count, and without one there are none. */
  lemma {:induction false} FirstDayCounts(plan: Plan, today: Date, w: nat, d: nat)
    ensures IsFirstDay(plan, today, w, d) ==> Unfinished(Some(plan), today) == UnfinishedOf(plan[w][d].tasks)
    ensures (forall v, e :: 0 <= v < |plan| && 0 <= e < |plan[v]| ==> plan[v][e].date != today) ==>
      Unfinished(Some(plan), today) == []
    ensures Unfinished(None, today) == []
  {
    hide Days, TodaysTasks;
    if IsFirstDay(plan, today, w, d) {
      NoSuchDay(plan[..w], today);
      assert !HasDay(Days(plan[..w]) + plan[w][..d], today);
      DayIsFound(plan, w, d, today);
    }
    if forall v, e :: 0 <= v < |plan| && 0 <= e < |plan[v]| ==> plan[v][e].date != today {
      NoSuchDay(plan, today);
      NoDayNoTasks(Days(plan), today);
    }
  }

  /** Of these, in order, all but the ones that are done or skipped, in whatever case that is written. */
  lemma {:induction false} FinishedAreLeftOut(tasks: seq<Task>, task: Task)
    ensures UnfinishedOf([]) == []
    ensures UnfinishedOf(tasks + [task])
         == if LowerText(task.status) == "done" || LowerText(task.status) == "skipped" then UnfinishedOf(tasks)
            else UnfinishedOf(tasks) + [task]
  {
    hide LowerText;
    assert (tasks + [task])[..|tasks|] == tasks;
    assert UnfinishedOf(tasks) + [] == UnfinishedOf(tasks);
  }

  // ---------------------------------------------------------------------------------------
  // Rows

  /** A user who is listed, wants reminders, is active, and has an address and a plan with
      unfinished tasks for today. */
  ghost predicate ShouldHear(tables: Tables, u: Id, today: Date) {
    && u in Concat(tables.pages) && u != ""
    && u in tables.users && tables.users[u].wantsReminders && tables.users[u].isActive
    && Strip(tables.users[u].email) != ""
    && u in tables.plans && Unfinished(tables.plans[u], today) != []
  }

  /** What a reminder of such a user says: the trimmed address in lower case, the trimmed name if
      there is one, how many tasks there are and what the first five are called. */
  ghost predicate Says(r: Reminder, tables: Tables, today: Date)
    requires ShouldHear(tables, r.user, today)
  {
    var (user, tasks) := (tables.users[r.user], Unfinished(tables.plans[r.user], today));
    && r.date == today && r.email == LowerText(Strip(user.email))
    && r.name == (if Strip(user.fullName) == "" then None else Some(Strip(user.fullName)))
    && r.count == |tasks| && |r.titles| == (if |tasks| < 5 then |tasks| else 5)
    && forall k :: 0 <= k < |r.titles| ==>
         r.titles[k] == if tasks[k].title != "" then tasks[k].title
                        else if tasks[k].tag != "" then tasks[k].tag
                        else if tasks[k].skill != "" then tasks[k].skill else "Practice"
  }

  lemma {:induction false} ReminderSays(tables: Tables, u: Id, today: Date)
    requires ShouldHear(tables, u, today) && IsDue(tables, u, today)
    ensures ReminderFor(tables, u, today).user == u && Says(ReminderFor(tables, u, today), tables, today)
  {
    hide Unfinished, LowerText, Strip, Concat;
  }

  lemma {:induction false} VisitAdds(p: Progress, tables: Tables, today: Date, dry: bool, insert: Id -> Insertion, u: Id)
    ensures var after := Visited(p, tables, today, dry, insert, u).outbox;
            || after == p.outbox
            || (!dry && insert(u) != Fails && !IsReminded(p.outbox, u, today)
                && |after| == |p.outbox| + 1 && after[..|p.outbox|] == p.outbox && after[|p.outbox|].user == u)
  {
    hide IsEligible, IsReminded, Unfinished, Strip, LowerText;
  }

  /** The user of row i was visited, had no reminder, and the insert did not fail. */
  ghost predicate IsFresh(p: Progress, after: seq<Reminder>, today: Date, dry: bool, insert: Id -> Insertion, ids: seq<Id>,
                          i: nat)
    requires i < |after|
  {
    !dry && after[i].user in ids && insert(after[i].user) != Fails && !IsReminded(p.outbox, after[i].user, today)
  }

  lemma {:induction false} VisitedRows(p: Progress, tables: Tables, today: Date, dry: bool, insert: Id -> Insertion,
                                       ids: seq<Id>)
    ensures var after := VisitedAll(p, tables, today, dry, insert, ids).outbox;
            |after| >= |p.outbox| && forall i :: |p.outbox| <= i < |after| ==> IsFresh(p, after, today, dry, insert, ids, i)
  {
    hide IsReminded, Visited, Gets;
    if ids != [] {
      var (init, last) := (ids[..|ids| - 1], ids[|ids| - 1]);
      assert ids == init + [last];
      VisitedRows(p, tables, today, dry, insert, init);
      var before := VisitedAll(p, tables, today, dry, insert, init);
      var after := VisitedAll(p, tables, today, dry, insert, ids).outbox;
      VisitAdds(before, tables, today, dry, insert, last);
      VisitsRemind(p, tables, today, dry, insert, init, last, today);
      forall i | |p.outbox| <= i < |after| ensures IsFresh(p, after, today, dry, insert, ids, i) {
        if i < |before.outbox| {
          assert after[i] == before.outbox[i];
          assert IsFresh(p, before.outbox, today, dry, insert, init, i);
        }
      }
    }
  }

  ghost predicate Heard(outbox: seq<Reminder>, u: Id, date: Date) {
    exists i :: 0 <= i < |outbox| && outbox[i].user == u && outbox[i].date == date
  }

  /** Every row that a sweep adds is for such a user and says just that; a dry run adds none. */
  lemma {:induction false} AddedRowsSay(outbox: seq<Reminder>, tables: Tables, today: Date, dry: bool,
                                        insert: Id -> Insertion, order: seq<Id>)
    requires IsOrder(tables, order)
    ensures var after := Swept(outbox, tables, today, dry, insert, order).outbox;
            && outbox <= after && (dry ==> after == outbox)
            && forall i :: |outbox| <= i < |after| ==>
                 ShouldHear(tables, after[i].user, today) && Says(after[i], tables, today)
                 && !Heard(outbox, after[i].user, today) && insert(after[i].user) != Fails
  {
    hide VisitedAll, Entitled, IsOrder, IsReminded, IsDue, ReminderFor, ShouldHear, Says, Heard;
    var start := Progress(outbox, Stats(|Entitled(tables)|, 0, 0, 0, 0, 0));
    var after := Swept(outbox, tables, today, dry, insert, order).outbox;
    VisitsAdd(start, tables, today, dry, insert, order);
    VisitedRows(start, tables, today, dry, insert, order);
    assert dry ==> |after| == |outbox| by {
      assert |after| > |outbox| ==> IsFresh(start, after, today, dry, insert, order, |outbox|);
    }
    forall i | |outbox| <= i < |after|
      ensures !dry && ShouldHear(tables, after[i].user, today) && Says(after[i], tables, today)
              && !Heard(outbox, after[i].user, today) && insert(after[i].user) != Fails
    {
      var u := after[i].user;
      assert IsFresh(start, after, today, dry, insert, order, i);
      OrderHas(tables, order, u);
      DueIff(tables, u, today);
      ReminderSays(tables, u, today);
      assert Heard(outbox, u, today) == IsReminded(outbox, u, today) by { HeardIff(outbox, u, today); }
    }
  }

  lemma HeardIff(outbox: seq<Reminder>, u: Id, date: Date)
    ensures Heard(outbox, u, date) <==> IsReminded(outbox, u, date)
  {
  }

  lemma DueIff(tables: Tables, u: Id, today: Date)
    ensures ShouldHear(tables, u, today) <==> u in Concat(tables.pages) && u != "" && IsDue(tables, u, today)
  {
    hide Unfinished, Strip, Concat;
  }

  lemma {:induction false} OrderIsDistinct(tables: Tables, order: seq<Id>)
    requires IsOrder(tables, order)
    ensures AreDistinct(order)
  {
    hide IsOrder;
    forall i, j | 0 <= i < j < |order| ensures order[i] != order[j] {
      OrderIsSingle(tables, order, i, j);
    }
  }

  predicate AreDistinct(ids: seq<Id>) { forall i, j :: 0 <= i < j < |ids| ==> ids[i] != ids[j] }

  /** After a sweep a user is reminded for a date exactly if that was so before, or the date is
      today, it was no dry run, the user should hear of it and the insert did not fail. */
  lemma {:induction false} WhoHears(outbox: seq<Reminder>, tables: Tables, today: Date, dry: bool,
                                    insert: Id -> Insertion, order: seq<Id>, u: Id, date: Date)
    requires IsOrder(tables, order)
    ensures var after := Swept(outbox, tables, today, dry, insert, order).outbox;
            Heard(after, u, date)
            <==> || Heard(outbox, u, date)
                 || (date == today && !dry && insert(u) != Fails && ShouldHear(tables, u, today))
  {
    hide Swept, IsOrder, IsDue, Concat, ShouldHear;
    WhoIsReminded(outbox, tables, today, dry, insert, order, u, date);
    DueIff(tables, u, today);
  }

  // ---------------------------------------------------------------------------------------
  // Counts

  ghost function Those(ids: seq<Id>, p: Id -> bool): set<Id> { set u | u in ids && p(u) }

  lemma {:induction false} OneMoreOfThose(ids: seq<Id>, u: Id, p: Id -> bool)
    requires u !in ids
    ensures |Those(ids + [u], p)| == |Those(ids, p)| + if p(u) then 1 else 0
  {
    var (before, after) := (Those(ids, p), Those(ids + [u], p));
    if p(u) {
      assert after == before + {u};
    } else {
      assert after == before;
    }
  }

  lemma {:induction false} DistinctAreCounted(ids: seq<Id>)
    requires AreDistinct(ids)
    ensures |set u | u in ids| == |ids|
  {
    if ids != [] {
      var (init, last) := (ids[..|ids| - 1], ids[|ids| - 1]);
      DistinctAreCounted(init);
      assert (set u | u in ids) == (set u | u in init) + {last} by { assert ids == init + [last]; }
    }
  }

  ghost predicate HasNoAddress(tables: Tables, u: Id) {
    u in tables.users && tables.users[u].wantsReminders && tables.users[u].isActive && u in tables.plans
    && Strip(tables.users[u].email) == ""
  }

  /** Due, without a reminder before, and the insert works if there is one. */
  ghost predicate IsCounted(outbox: seq<Reminder>, tables: Tables, u: Id, today: Date, dry: bool, insert: Id -> Insertion) {
    IsDue(tables, u, today) && !IsReminded(outbox, u, today) && (dry || insert(u) == Works)
  }

  lemma {:induction false} VisitsAreCounted(p: Progress, tables: Tables, today: Date, dry: bool, insert: Id -> Insertion,
                                            ids: seq<Id>)
    requires AreDistinct(ids)
    ensures var (s, t) := (p.stats, VisitedAll(p, tables, today, dry, insert, ids).stats);
            && t.entitled == s.entitled && t.eligible == s.eligible
            && t.noEmail == s.noEmail + |Those(ids, u => HasNoAddress(tables, u))|
            && t.unfinished == s.unfinished + |Those(ids, u => IsDue(tables, u, today))|
            && t.enqueued == s.enqueued + |Those(ids, u => IsCounted(p.outbox, tables, u, today, dry, insert))|
  {
    hide Those, Strip, IsReminded, Unfinished;
    var due := u => IsDue(tables, u, today);
    var noMail := u => HasNoAddress(tables, u);
    var counted := u => IsCounted(p.outbox, tables, u, today, dry, insert);
    if ids == [] {
      NoneOfThose(noMail);
      NoneOfThose(due);
      NoneOfThose(counted);
    } else {
      var (init, last) := (ids[..|ids| - 1], ids[|ids| - 1]);
      assert ids == init + [last] && last !in init;
      VisitsAreCounted(p, tables, today, dry, insert, init);
      VisitsRemind(p, tables, today, dry, insert, init, last, today);
      OneMoreOfThose(init, last, noMail);
      OneMoreOfThose(init, last, due);
      OneMoreOfThose(init, last, counted);
    }
  }

  lemma NoneOfThose(p: Id -> bool)
    ensures |Those([], p)| == 0
  {
  }

  lemma {:induction false} EligibleAreDistinct(tables: Tables, ids: seq<Id>)
    requires AreDistinct(ids)
    ensures AreDistinct(Eligible(tables, ids))
  {
    hide IsEligible;
    if ids != [] {
      var (init, last) := (ids[..|ids| - 1], ids[|ids| - 1]);
      EligibleAreDistinct(tables, init);
      EligibleHas(tables, init, last);
    }
  }

  /** A sweep counts the users it finds listed, those of them who are active and want reminders,
      those with a plan and no address, and those who should hear; and as enqueued the ones among
      these who had no reminder and got one, or would have in a dry run. The rest are counted as skipped. */
  lemma {:induction false} CountsAreOfUsers(outbox: seq<Reminder>, tables: Tables, today: Date, dry: bool,
                                            insert: Id -> Insertion, order: seq<Id>)
    requires IsOrder(tables, order)
    ensures var (s, listed) := (Swept(outbox, tables, today, dry, insert, order).stats, Concat(tables.pages));
            && s.entitled == |set u | u in listed && u != ""|
            && s.eligible == |set u | u in listed && u != "" && u in tables.users
                                      && tables.users[u].wantsReminders && tables.users[u].isActive|
            && s.noEmail == |set u | u in listed && u != "" && HasNoAddress(tables, u)|
            && s.unfinished == |set u | u in listed && ShouldHear(tables, u, today)|
            && s.enqueued == |set u | u in listed && ShouldHear(tables, u, today) && (dry || insert(u) == Works)
                                      && !Heard(outbox, u, today)|
            && s.existing == s.unfinished - s.enqueued
  {
    hide Firsts, Concat, VisitedAll, IsOrder, Eligible, ShouldHear, IsDue, HasNoAddress;
    var (ids, listed) := (Entitled(tables), Concat(tables.pages));
    EntitledAreCounted(tables);
    OrderIsDistinct(tables, order);
    VisitsAreCounted(Progress(outbox, Stats(|ids|, 0, 0, 0, 0, 0)), tables, today, dry, insert, order);
    SweepBalances(outbox, tables, today, dry, insert, order);
    forall u
      ensures u in order && HasNoAddress(tables, u) <==> u in listed && u != "" && HasNoAddress(tables, u)
      ensures u in order && IsDue(tables, u, today) <==> u in listed && ShouldHear(tables, u, today)
    {
      NoAddressMeansVisited(tables, order, u);
    }
    assert Those(order, u => HasNoAddress(tables, u)) == set u | u in listed && u != "" && HasNoAddress(tables, u);
    assert Those(order, u => IsDue(tables, u, today)) == set u | u in listed && ShouldHear(tables, u, today);
    assert Those(order, u => IsCounted(outbox, tables, u, today, dry, insert))
        == set u | u in listed && ShouldHear(tables, u, today) && (dry || insert(u) == Works)
                   && !Heard(outbox, u, today);
  }

  lemma {:induction false} NoAddressMeansVisited(tables: Tables, order: seq<Id>, u: Id)
    requires IsOrder(tables, order)
    ensures u in order && HasNoAddress(tables, u) <==> u in Concat(tables.pages) && u != "" && HasNoAddress(tables, u)
    ensures forall today :: u in order && IsDue(tables, u, today) <==> u in Concat(tables.pages) && ShouldHear(tables, u, today)
  {
    hide IsOrder, Concat, Unfinished, Strip;
    OrderHas(tables, order, u);
  }

  lemma {:induction false} EntitledAreCounted(tables: Tables)
    ensures var listed := Concat(tables.pages);
            && |Entitled(tables)| == |set u | u in listed && u != ""|
            && |Eligible(tables, Entitled(tables))| == |set u | u in listed && u != "" && u in tables.users
                                                             && tables.users[u].wantsReminders && tables.users[u].isActive|
  {
    hide Concat, Eligible;
    var (ids, listed) := (Entitled(tables), Concat(tables.pages));
    assert AreDistinct(ids);
    DistinctAreCounted(ids);
    EligibleAreDistinct(tables, ids);
    DistinctAreCounted(Eligible(tables, ids));
    forall u ensures u in Eligible(tables, ids) <==> u in ids && IsEligible(tables, u) {
      EligibleHas(tables, ids, u);
    }
    assert (set u | u in ids) == set u | u in listed && u != "";
    assert (set u | u in Eligible(tables, ids)) == set u | u in listed && u != "" && u in tables.users
                                                           && tables.users[u].wantsReminders && tables.users[u].isActive;
  }
}
