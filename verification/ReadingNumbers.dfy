/** delete_question of app/admin/reading_builder.py: a question goes, with its answers and its
    versions, and the rest of its part is renumbered row by row. */
module ReadingNumbers {
  type Id = string

  datatype Scope = Scope(mockId: string, area: string, part: int)
  datatype Question = Question(scope: Scope, number: int)
  type Table = map<Id, Question>

  /** No two rows of a part carry the same number. */
  predicate NoClash(rows: Table, scope: Scope) {
    forall a, b :: a in rows && b in rows && a != b && rows[a].scope == scope && rows[b].scope == scope
                   ==> rows[a].number != rows[b].number
  }

  /** Rows by number, each once; ties in any order. */
  predicate IsSorted(ids: seq<Id>, rows: Table) {
    && (forall i :: 0 <= i < |ids| ==> ids[i] in rows)
    && (forall i, j :: 0 <= i < j < |ids| ==> ids[i] != ids[j] && rows[ids[i]].number <= rows[ids[j]].number)
  }

  /** What the ordered select of a part gives. */
  ghost predicate IsListing(ids: seq<Id>, rows: Table, scope: Scope) {
    && IsSorted(ids, rows)
    && (forall i :: 0 <= i < |ids| ==> rows[ids[i]].scope == scope)
    && (forall a :: a in rows && rows[a].scope == scope ==> a in ids)
  }

  /** The table once the first k rows of the listing are numbered. */
  function Renumbered(rows: Table, ids: seq<Id>, k: nat): (r: Table)
    requires k <= |ids| && IsSorted(ids, rows)
    ensures r.Keys == rows.Keys
  {
    if k == 0 then rows else
    var before := Renumbered(rows, ids, k - 1);
    before[ids[k - 1] := before[ids[k - 1]].(number := k)]
  }

  lemma {:induction false} RenumberedAt(rows: Table, ids: seq<Id>, k: nat, i: nat)
    requires k <= |ids| && i < |ids| && IsSorted(ids, rows)
    ensures Renumbered(rows, ids, k)[ids[i]] == rows[ids[i]].(number := if i < k then i + 1 else rows[ids[i]].number)
  {
    if k > 0 {
      RenumberedAt(rows, ids, k - 1, i);
    }
  }

  lemma {:induction false} OthersStay(rows: Table, ids: seq<Id>, k: nat, a: Id)
    requires k <= |ids| && IsSorted(ids, rows) && a in rows && a !in ids
    ensures Renumbered(rows, ids, k)[a] == rows[a]
  {
    if k > 0 {
      OthersStay(rows, ids, k - 1, a);
    }
  }

  /** The table after k rows, read off row by row. */
  lemma RenumberedRow(rows: Table, scope: Scope, ids: seq<Id>, k: nat, a: Id)
    requires k <= |ids| && IsListing(ids, rows, scope) && a in rows
    ensures rows[a].scope != scope ==> Renumbered(rows, ids, k)[a] == rows[a]
    ensures rows[a].scope == scope ==>
      exists i :: 0 <= i < |ids| && ids[i] == a
               && Renumbered(rows, ids, k)[a] == rows[a].(number := if i < k then i + 1 else rows[a].number)
  {
    hide Renumbered;
    if a in ids {
      var i :| 0 <= i < |ids| && ids[i] == a;
      RenumberedAt(rows, ids, k, i);
    } else {
      OthersStay(rows, ids, k, a);
    }
  }

  /** No row that is still to be written holds a number that an earlier row takes. */
  predicate LeavesRoom(rows: Table, ids: seq<Id>)
    requires IsSorted(ids, rows)
  {
    forall i :: 0 <= i < |ids| ==> rows[ids[i]].number < 1 || rows[ids[i]].number > i
  }

  /** No two rows share a number after any of the updates. */
  predicate NeverClashes(rows: Table, scope: Scope, ids: seq<Id>)
    requires IsSorted(ids, rows)
  {
    forall k :: 0 <= k <= |ids| ==> NoClash(Renumbered(rows, ids, k), scope)
  }

  /** Which holds exactly when none did before and no row starts out with a number that an
      earlier row is to take. */
  lemma NeverClashesIff(rows: Table, scope: Scope, ids: seq<Id>)
    requires IsListing(ids, rows, scope)
    ensures NeverClashes(rows, scope, ids) <==> NoClash(rows, scope) && LeavesRoom(rows, ids)
  {
    if NoClash(rows, scope) && LeavesRoom(rows, ids) {
      forall k | 0 <= k <= |ids| ensures NoClash(Renumbered(rows, ids, k), scope) {
        StepIsClear(rows, scope, ids, k);
      }
    }
    if NeverClashes(rows, scope, ids) {
      StartsAsIs(rows, ids);
      assert NoClash(Renumbered(rows, ids, 0), scope);
      forall i | 0 <= i < |ids| ensures rows[ids[i]].number < 1 || rows[ids[i]].number > i {
        if 1 <= rows[ids[i]].number <= i {
          TakenMeansClash(rows, scope, ids, i);
        }
      }
    }
  }

  /** The row that takes the number first clashes with the one that still has it. */
  lemma TakenMeansClash(rows: Table, scope: Scope, ids: seq<Id>, i: nat)
    requires IsListing(ids, rows, scope) && i < |ids| && 1 <= rows[ids[i]].number <= i
    ensures !NoClash(Renumbered(rows, ids, rows[ids[i]].number), scope)
  {
    hide Renumbered;
    var n := rows[ids[i]].number;
    RenumberedAt(rows, ids, n, i);
    RenumberedAt(rows, ids, n, n - 1);
  }

  lemma StartsAsIs(rows: Table, ids: seq<Id>)
    requires IsSorted(ids, rows)
    ensures Renumbered(rows, ids, 0) == rows
  {
  }

  lemma StepIsClear(rows: Table, scope: Scope, ids: seq<Id>, k: nat)
    requires IsListing(ids, rows, scope) && k <= |ids|
    requires NoClash(rows, scope) && LeavesRoom(rows, ids)
    ensures NoClash(Renumbered(rows, ids, k), scope)
  {
    hide Renumbered;
    var now := Renumbered(rows, ids, k);
    forall a, b | a in now && b in now && a != b && now[a].scope == scope && now[b].scope == scope
      ensures now[a].number != now[b].number
    {
      RenumberedRow(rows, scope, ids, k, a);
      RenumberedRow(rows, scope, ids, k, b);
    }
  }

  /** Distinct positive numbers leave room: the row at place i has at least the number i + 1. */
  lemma PositiveLeavesRoom(rows: Table, scope: Scope, ids: seq<Id>)
    requires IsListing(ids, rows, scope) && IsClean(rows, scope)
    ensures LeavesRoom(rows, ids)
  {
    forall i | 0 <= i < |ids| ensures rows[ids[i]].number > i {
      NumberIsHigh(rows, scope, ids, i);
    }
  }

  lemma {:induction false} NumberIsHigh(rows: Table, scope: Scope, ids: seq<Id>, i: nat)
    requires IsListing(ids, rows, scope) && IsClean(rows, scope) && i < |ids|
    ensures rows[ids[i]].number > i
  {
    if i > 0 {
      NumberIsHigh(rows, scope, ids, i - 1);
    }
  }

  /** Distinct positive numbers. */
  predicate IsClean(rows: Table, scope: Scope) {
    NoClash(rows, scope) && forall a :: a in rows && rows[a].scope == scope ==> rows[a].number >= 1
  }

  /** How many rows of the part have a smaller number, counted along the listing. */
  function Rank(rows: Table, ids: seq<Id>, number: int): (r: nat)
    requires IsSorted(ids, rows)
    ensures r <= |ids|
  {
    if ids == [] then 0
    else Rank(rows, ids[..|ids| - 1], number) + (if rows[ids[|ids| - 1]].number < number then 1 else 0)
  }

  lemma {:induction false} RankIsPlace(rows: Table, ids: seq<Id>, number: int, i: nat)
    requires IsSorted(ids, rows) && i <= |ids|
    requires forall j :: 0 <= j < |ids| ==> (rows[ids[j]].number < number <==> j < i)
    ensures Rank(rows, ids, number) == i
  {
    if |ids| > 0 {
      var init := ids[..|ids| - 1];
      RankIsPlace(rows, init, number, if i == |ids| then i - 1 else i);
    }
  }

  /** The part as it should be after renumbering: every row has one more than the number of rows
      that were below it. */
  predicate IsRenumbered(before: Table, after: Table, scope: Scope, ids: seq<Id>)
    requires IsSorted(ids, before)
  {
    && after.Keys == before.Keys
    && forall a :: a in before ==>
         after[a] == if before[a].scope == scope
                     then before[a].(number := Rank(before, ids, before[a].number) + 1)
                     else before[a]
  }

  /** Which is what the updates arrive at, so the numbers are 1 to n and the order is the same. */
  lemma RenumberArrives(rows: Table, scope: Scope, ids: seq<Id>)
    requires IsListing(ids, rows, scope) && NoClash(rows, scope)
    ensures IsRenumbered(rows, Renumbered(rows, ids, |ids|), scope, ids)
  {
    hide Renumbered;
    var after := Renumbered(rows, ids, |ids|);
    forall a | a in rows
      ensures after[a] == if rows[a].scope == scope
                          then rows[a].(number := Rank(rows, ids, rows[a].number) + 1) else rows[a]
    {
      RenumberedRow(rows, scope, ids, |ids|, a);
      if rows[a].scope == scope {
        var i :| 0 <= i < |ids| && ids[i] == a && after[a] == rows[a].(number := i + 1);
        RankIsPlace(rows, ids, rows[a].number, i);
      }
    }
  }

  predicate HasNumber(rows: Table, scope: Scope, n: int) {
    exists a :: a in rows && rows[a].scope == scope && rows[a].number == n
  }

  /** The numbers in use are 1 to n, and the rows are in the order they had. */
  lemma RenumberedIsOneToN(rows: Table, scope: Scope, ids: seq<Id>, n: int, a: Id, b: Id)
    requires IsListing(ids, rows, scope) && NoClash(rows, scope)
    ensures var after := Renumbered(rows, ids, |ids|);
            && (HasNumber(after, scope, n) <==> 1 <= n <= |ids|)
            && NoClash(after, scope)
            && (a in rows && b in rows && rows[a].scope == scope && rows[b].scope == scope ==>
                  (after[a].number < after[b].number <==> rows[a].number < rows[b].number))
  {
    hide Renumbered;
    var after := Renumbered(rows, ids, |ids|);
    forall c | c in rows
      ensures after[c].scope == rows[c].scope
      ensures rows[c].scope == scope ==> exists i :: 0 <= i < |ids| && ids[i] == c && after[c].number == i + 1
    {
      RenumberedRow(rows, scope, ids, |ids|, c);
    }
    if 1 <= n <= |ids| {
      RenumberedAt(rows, ids, |ids|, n - 1);
      assert ids[n - 1] in after;
    }
  }

  /** From a part that was numbered 1 to n, a delete moves the later questions down by one and
      leaves the earlier ones. */
  lemma DeleteShifts(rows: Table, gone: Id, ids: seq<Id>, a: Id)
    requires gone in rows && IsListing(ids, rows - {gone}, rows[gone].scope)
    requires IsNumbered(rows, rows[gone].scope, |ids| + 1)
    requires a in rows && a != gone && rows[a].scope == rows[gone].scope
    ensures Renumbered(rows - {gone}, ids, |ids|)[a].number
         == if rows[a].number < rows[gone].number then rows[a].number else rows[a].number - 1
  {
    hide Renumbered, NoClash, IsNumbered;
    var left := rows - {gone};
    RenumberedRow(left, rows[gone].scope, ids, |ids|, a);
    var i :| 0 <= i < |ids| && ids[i] == a && Renumbered(left, ids, |ids|)[a].number == i + 1;
    AtLeast(rows, gone, ids, i);
    AtMost(rows, gone, ids, i);
  }

  /** Distinct numbers from 1 to n. */
  predicate IsNumbered(rows: Table, scope: Scope, n: nat) {
    NoClash(rows, scope) && forall a :: a in rows && rows[a].scope == scope ==> 1 <= rows[a].number <= n
  }

  lemma {:induction false} AtLeast(rows: Table, gone: Id, ids: seq<Id>, i: nat)
    requires gone in rows && IsListing(ids, rows - {gone}, rows[gone].scope)
    requires IsNumbered(rows, rows[gone].scope, |ids| + 1)
    requires i < |ids|
    ensures ids[i] in rows
    ensures rows[ids[i]].number >= if rows[ids[i]].number < rows[gone].number then i + 1 else i + 2
  {
    if i > 0 {
      AtLeast(rows, gone, ids, i - 1);
    }
    assert ids[i] in rows - {gone};
  }

  lemma {:induction false} AtMost(rows: Table, gone: Id, ids: seq<Id>, i: nat)
    requires gone in rows && IsListing(ids, rows - {gone}, rows[gone].scope)
    requires IsNumbered(rows, rows[gone].scope, |ids| + 1)
    requires i < |ids|
    ensures ids[i] in rows
    ensures rows[ids[i]].number <= if rows[ids[i]].number < rows[gone].number then i + 1 else i + 2
    decreases |ids| - i
  {
    if i + 1 < |ids| {
      AtMost(rows, gone, ids, i + 1);
    }
    assert ids[i] in rows - {gone};
  }

  /** The rows of the other questions. */
  function Without(rows: map<nat, Id>, gone: Id): (r: map<nat, Id>)
    ensures forall k :: k in r <==> k in rows && rows[k] != gone
    ensures forall k :: k in r ==> r[k] == rows[k]
  {
    map k | k in rows && rows[k] != gone :: rows[k]
  }

  /** A sorted listing with one more row. */
  function Insert(ids: seq<Id>, a: Id, rows: Table): (r: seq<Id>)
    requires IsSorted(ids, rows) && a in rows
    ensures multiset(r) == multiset(ids) + multiset{a}
  {
    if ids == [] || rows[ids[|ids| - 1]].number <= rows[a].number then ids + [a]
    else
      assert ids == ids[..|ids| - 1] + [ids[|ids| - 1]];
      Insert(ids[..|ids| - 1], a, rows) + [ids[|ids| - 1]]
  }

  lemma InsertHas(ids: seq<Id>, a: Id, rows: Table, b: Id)
    requires IsSorted(ids, rows) && a in rows
    ensures b in Insert(ids, a, rows) <==> b == a || b in ids
  {
  }

  lemma {:induction false} InsertSorts(ids: seq<Id>, a: Id, rows: Table)
    requires IsSorted(ids, rows) && a in rows && a !in ids
    ensures IsSorted(Insert(ids, a, rows), rows)
  {
    if ids != [] && rows[ids[|ids| - 1]].number > rows[a].number {
      var (init, last) := (ids[..|ids| - 1], ids[|ids| - 1]);
      InsertSorts(init, a, rows);
      var r := Insert(init, a, rows);
      forall i | 0 <= i < |r| ensures r[i] != last && rows[r[i]].number <= rows[last].number {
        InsertHas(init, a, rows, r[i]);
      }
    }
  }

  class QuestionTable {
    var questions: Table
    var answers: map<nat, Id>
    var versions: map<nat, Id>
    /** The questions table after each write so far. */
    ghost var trace: seq<Table>

    constructor (questions: Table, answers: map<nat, Id>, versions: map<nat, Id>)
      ensures this.questions == questions && this.answers == answers && this.versions == versions && trace == []
    {
      this.questions, this.answers, this.versions, trace := questions, answers, versions, [];
    }

    /** The ordered select of one part. */
    method Select(scope: Scope) returns (ids: seq<Id>)
      ensures IsListing(ids, questions, scope)
    {
      var todo := set a | a in questions && questions[a].scope == scope;
      ids := [];
      while todo != {}
        invariant forall a :: a in todo ==> a in questions && questions[a].scope == scope && a !in ids
        invariant forall a :: a in questions && questions[a].scope == scope ==> a in todo || a in ids
        invariant IsSorted(ids, questions) && forall a :: a in ids ==> a in questions && questions[a].scope == scope
      {
        hide IsSorted;
        var a :| a in todo;
        InsertSorts(ids, a, questions);
        forall b ensures b in Insert(ids, a, questions) <==> b == a || b in ids {
          InsertHas(ids, a, questions, b);
        }
        ids := Insert(ids, a, questions);
        todo := todo - {a};
      }
    }

    /** Numbers the rows of a part 1, 2, ... in order, writing only the rows that change. */
    method Renumber(scope: Scope) returns (ghost ids: seq<Id>)
      modifies this`questions, this`trace
      ensures IsListing(ids, old(questions), scope)
      ensures questions == Renumbered(old(questions), ids, |ids|)
      ensures trace == old(trace) + Writes(old(questions), ids, |ids|)
    {
      hide Renumbered, IsListing;
      var rows := Select(scope);
      ids := rows;
      IsInOrder(questions, scope, ids);
      StartsAsIs(questions, ids);
      for i := 0 to |rows|
        invariant questions == Renumbered(old(questions), ids, i)
        invariant trace == old(trace) + Writes(old(questions), ids, i)
      {
        RenumberedAt(old(questions), ids, i, i);
        NextRow(old(questions), ids, i);
        if questions[rows[i]].number != i + 1 {
          questions := questions[rows[i] := questions[rows[i]].(number := i + 1)];
          trace := trace + [questions];
        }
      }
    }

    /** Nothing is found, or the question goes and its part is renumbered. */
    method Delete(id: Id) returns (found: bool, ghost ids: seq<Id>)
      modifies this
      ensures found <==> id in old(questions)
      ensures !found ==> questions == old(questions) && answers == old(answers) && versions == old(versions)
                         && trace == old(trace)
      ensures found ==> forall k :: k in answers <==> k in old(answers) && old(answers)[k] != id
      ensures found ==> forall k :: k in answers ==> answers[k] == old(answers)[k]
      ensures found ==> forall k :: k in versions <==> k in old(versions) && old(versions)[k] != id
      ensures found ==> forall k :: k in versions ==> versions[k] == old(versions)[k]
      ensures found ==> var rest := old(questions) - {id};
                        && IsListing(ids, rest, old(questions)[id].scope)
                        && questions == Renumbered(rest, ids, |ids|)
                        && trace == old(trace) + [rest] + Writes(rest, ids, |ids|)
    {
      if id !in questions {
        return false, [];
      }
      hide Renumbered, IsListing, Writes;
      found := true;
      answers := Without(answers, id);
      versions := Without(versions, id);
      var scope := questions[id].scope;
      questions := questions - {id};
      trace := trace + [questions];
      ids := Renumber(scope);
    }
  }

  lemma IsInOrder(rows: Table, scope: Scope, ids: seq<Id>)
    requires IsListing(ids, rows, scope)
    ensures IsSorted(ids, rows)
  {
  }

  /** The tables after each write: one for every row among the first k whose number changes. */
  function Writes(rows: Table, ids: seq<Id>, k: nat): seq<Table>
    requires k <= |ids| && IsSorted(ids, rows)
  {
    if k == 0 then []
    else Writes(rows, ids, k - 1) + if rows[ids[k - 1]].number == k then [] else [Renumbered(rows, ids, k)]
  }

  lemma {:induction false} WritesAreClear(rows: Table, scope: Scope, ids: seq<Id>, k: nat)
    requires k <= |ids| && IsSorted(ids, rows) && NeverClashes(rows, scope, ids)
    ensures forall i :: 0 <= i < |Writes(rows, ids, k)| ==> NoClash(Writes(rows, ids, k)[i], scope)
  {
    if k > 0 {
      WritesAreClear(rows, scope, ids, k - 1);
    }
  }

  /** A delete in a part with distinct positive numbers never leaves two rows with one number,
      at any write, and ends with the rows that were below each row counted. */
  lemma DeleteIsSafe(rows: Table, gone: Id, ids: seq<Id>)
    requires gone in rows && IsClean(rows, rows[gone].scope)
    requires IsListing(ids, rows - {gone}, rows[gone].scope)
    ensures var writes := Writes(rows - {gone}, ids, |ids|);
            forall i :: 0 <= i < |writes| ==> NoClash(writes[i], rows[gone].scope)
    ensures NoClash(rows - {gone}, rows[gone].scope)
    ensures IsRenumbered(rows - {gone}, Renumbered(rows - {gone}, ids, |ids|), rows[gone].scope, ids)
  {
    hide Renumbered, IsSorted, LeavesRoom, IsRenumbered, Writes;
    var (scope, rest) := (rows[gone].scope, rows - {gone});
    assert IsClean(rest, scope);
    PositiveLeavesRoom(rest, scope, ids);
    NeverClashesIff(rest, scope, ids);
    RenumberArrives(rest, scope, ids);
    WritesAreClear(rest, scope, ids, |ids|);
  }

  lemma NextRow(rows: Table, ids: seq<Id>, i: nat)
    requires i < |ids| && IsSorted(ids, rows)
    ensures var now := Renumbered(rows, ids, i);
            Renumbered(rows, ids, i + 1) == now[ids[i] := now[ids[i]].(number := i + 1)]
    ensures Renumbered(rows, ids, i)[ids[i]].number == i + 1 ==>
              Renumbered(rows, ids, i + 1) == Renumbered(rows, ids, i)
  {
  }

  /** The last table of a trace that starts with `first`. */
  function Last(first: Table, trace: seq<Table>): Table { if trace == [] then first else trace[|trace| - 1] }

  /** One row of the listing gets the number of its place, which it did not have. */
  ghost predicate IsStep(before: Table, after: Table, rows: Table, ids: seq<Id>, k: nat) {
    exists i :: 0 <= i < k <= |ids| && ids[i] in rows && rows[ids[i]].number != i + 1
                && ids[i] in before && after == before[ids[i] := before[ids[i]].(number := i + 1)]
  }

  ghost predicate AreSteps(writes: seq<Table>, rows: Table, ids: seq<Id>, k: nat) {
    forall j :: 0 <= j < |writes| ==> IsStep(Last(rows, writes[..j]), writes[j], rows, ids, k)
  }

  lemma {:induction false} StepsOfOneMore(writes: seq<Table>, last: Table, rows: Table, ids: seq<Id>, k: nat)
    requires AreSteps(writes, rows, ids, k) && IsStep(Last(rows, writes), last, rows, ids, k)
    ensures AreSteps(writes + [last], rows, ids, k)
  {
    hide IsStep, Last;
    var all := writes + [last];
    forall j | 0 <= j < |all| ensures IsStep(Last(rows, all[..j]), all[j], rows, ids, k) {
      assert j < |writes| ==> all[..j] == writes[..j];
      assert all[..|writes|] == writes;
    }
  }

  lemma {:induction false} StepsOfMore(writes: seq<Table>, rows: Table, ids: seq<Id>, k: nat)
    requires AreSteps(writes, rows, ids, k) && k < |ids|
    ensures AreSteps(writes, rows, ids, k + 1)
  {
    forall j | 0 <= j < |writes| ensures IsStep(Last(rows, writes[..j]), writes[j], rows, ids, k + 1) {
      assert IsStep(Last(rows, writes[..j]), writes[j], rows, ids, k);
    }
  }

  /** Each write is such a step, and the last one leaves every row with the number of its place;
      there is none exactly if all rows had theirs. */
  lemma {:induction false} WritesAreSteps(rows: Table, ids: seq<Id>, k: nat)
    requires k <= |ids| && IsSorted(ids, rows)
    ensures var writes := Writes(rows, ids, k);
            && AreSteps(writes, rows, ids, k) && Last(rows, writes) == Renumbered(rows, ids, k)
            && (writes == [] <==> forall i :: 0 <= i < k ==> rows[ids[i]].number == i + 1)
  {
    hide Renumbered, AreSteps;
    if k == 0 {
      StartsAsIs(rows, ids);
      NoSteps(rows, ids);
    } else {
      WritesAreSteps(rows, ids, k - 1);
      NextRow(rows, ids, k - 1);
      RenumberedAt(rows, ids, k - 1, k - 1);
      var init := Writes(rows, ids, k - 1);
      StepsOfMore(init, rows, ids, k - 1);
      if rows[ids[k - 1]].number != k {
        StepsOfOneMore(init, Renumbered(rows, ids, k), rows, ids, k);
      } else {
        assert init + [] == init;
      }
    }
  }

  lemma NoSteps(rows: Table, ids: seq<Id>)
    ensures AreSteps([], rows, ids, 0)
  {
  }
}
