/** No stuck work: the pipelines of english_forge/service.py never rest while an evaluation says
    that work is under way, and there is always a next step until they do. */
module ForgeProgress {
  import opened Wrappers
  import opened PlainStore
  import opened ForgeService

  /** Whatever the interleaving, an evaluation that says work is under way is owed a final
      write by some thread. */
  lemma NoStuckWork(events: seq<Event>, sid: Key)
    ensures var s := Run(START, events);
            Unsettled(s.store, sid) ==>
              exists i :: 0 <= i < |s.threads| && Owes(s.store, s.threads[i], sid)
  {
    RunKeepsInv(START, events);
  }

  predicate Quiescent(s: State) {
    forall i :: 0 <= i < |s.threads| ==> IsOver(s.threads[i])
  }

  /** Once every thread is over, every stored evaluation is completed, stubbed or failed. */
  lemma QuietMeansSettled(events: seq<Event>, sid: Key)
    requires Quiescent(Run(START, events))
    ensures var store := Run(START, events).store;
            sid in store.evaluations ==> IsFinal(TagOf(store.evaluations[sid], Status))
  {
    hide Inv;
    StartIsOk();
    RunKeepsInv(START, events);
    var s := Run(START, events);
    InvNamesStatus(s, sid);
    NoStuckWork(events, sid);
  }

  lemma InvNamesStatus(s: State, sid: Key)
    requires Inv(s)
    ensures sid in s.store.evaluations ==> IsEvaluationTag(TagOf(s.store.evaluations[sid], Status))
  {
  }

  /** The most steps a thread and the pipeline it may start can still take. */
  function StepsLeft(t: Thread): nat {
    match t
    case Done => 0
    case NewSession(_) => 1
    case OpenSession(_, _, _, _) => 2
    case OpenCreate(_, _, _, _) => 1
    case ConfirmSession(_, _, _, _) => 14
    case ConfirmResponse(_, _, _, _) => 13
    case ConfirmObject(_, _) => 12
    case ConfirmPending(_, _) => 11
    case ConfirmLaunch(_, _) => 10
    case FinalizeSession(_) => 24
    case FinalizeUpdate(_) => 23
    case FinalizeLatest(_) => 22
    case PollSession(_, _) => 12
    case PollLatest(_, _) => 11
    case PollEvaluation(_, _, _) => 10
    case ShowEvaluation(_) => 2
    case ShowLatest(_, _) => 1
    case Shown(_, _) => 0
    case PipeResponse(_) => 9
    case PipeSession(_, _) => 8
    case PipeMark(_, _) => 7
    case PipeProcessing(_, _) => 6
    case PipeListen(_, _) => 5
    case PipeDeaf(_, _) => 4
    case PipeCoach(_, _, _, _) => 4
    case FailMark(_) => 3
    case FailRead(_) => 2
    case FailWrite(_, _) => 1
  }

  function WorkLeft(threads: seq<Thread>): nat {
    if threads == [] then 0 else StepsLeft(threads[0]) + WorkLeft(threads[1..])
  }

  lemma {:induction false} WorkOfConcat(a: seq<Thread>, b: seq<Thread>)
    ensures WorkLeft(a + b) == WorkLeft(a) + WorkLeft(b)
  {
    if a == [] {
      assert a + b == b;
    } else {
      WorkOfConcat(a[1..], b);
      assert (a + b)[1..] == a[1..] + b;
    }
  }

  lemma {:induction false} WorkOfUpdate(threads: seq<Thread>, i: nat, t: Thread)
    requires i < |threads|
    ensures WorkLeft(threads[i := t]) + StepsLeft(threads[i]) == WorkLeft(threads) + StepsLeft(t)
  {
    if i > 0 {
      WorkOfUpdate(threads[1..], i - 1, t);
      assert threads[i := t][1..] == threads[1..][i - 1 := t];
    }
  }

  lemma StepUsesWork(t: Thread, answer: Option<Row>, w: World)
    requires !IsOver(t)
    ensures var (t', started) := Next(t, answer, w);
            StepsLeft(t') + (if started.Some? then StepsLeft(started.value) else 0) < StepsLeft(t)
  {
  }

  /** The tick advances a thread that is not over. */
  ghost predicate IsWork(s: State, e: Event) {
    e.Tick? && IsTick(s, e.i, e.world) && !IsOver(s.threads[e.i])
  }

  ghost predicate AllWork(s: State, events: seq<Event>)
    decreases |events|
  {
    events == [] || (IsWork(s, events[0]) && AllWork(Apply(s, events[0]), events[1..]))
  }

  lemma WorkIsUsed(s: State, e: Event)
    requires IsWork(s, e)
    ensures WorkLeft(Apply(s, e).threads) < WorkLeft(s.threads)
  {
    hide Next, CallOf;
    var answer := AnswerTo(s.store, CallOf(s.threads[e.i], s.clock, e.world));
    var (t', started) := Next(s.threads[e.i], answer, e.world);
    StepUsesWork(s.threads[e.i], answer, e.world);
    WorkOfUpdate(s.threads, e.i, t');
    if started.Some? {
      WorkOfConcat(s.threads[e.i := t'], [started.value]);
    }
  }

  /** Without new requests, no schedule can go on for more than `WorkLeft` steps. */
  lemma {:induction false} WorkIsBounded(s: State, events: seq<Event>)
    requires AllWork(s, events)
    ensures |events| + WorkLeft(Run(s, events).threads) <= WorkLeft(s.threads)
    decreases |events|
  {
    hide Apply, IsWork;
    if events != [] {
      WorkIsUsed(s, events[0]);
      WorkIsBounded(Apply(s, events[0]), events[1..]);
    }
  }

  lemma {:induction false} RunConcat(s: State, a: seq<Event>, b: seq<Event>)
    ensures Run(s, a + b) == Run(Run(s, a), b)
    decreases |a|
  {
    hide Apply;
    if a == [] {
      assert a + b == b;
    } else {
      RunConcat(Apply(s, a[0]), a[1..], b);
      assert (a + b)[1..] == a[1..] + b;
    }
  }

  lemma LengthBound(taken: set<Key>) returns (n: nat)
    ensures forall key :: key in taken ==> |key| <= n
  {
    if taken == {} {
      n := 0;
    } else {
      var key :| key in taken;
      n := LengthBound(taken - {key});
      n := if n < |key| then |key| else n;
    }
  }

  /** Every thread that is not over can take its next step: ids never run out. */
  lemma CanWork(s: State, i: nat) returns (e: Event)
    requires i < |s.threads| && !IsOver(s.threads[i])
    ensures IsWork(s, e) && e.i == i
  {
    hide LastPatch, HeardPatch, BusyPatch, FailedPatch, MarkPatch, ConfirmedPatch;
    var evaluations := set sid | sid in s.store.evaluations :: IdOf(s.store.evaluations[sid]);
    var taken := s.store.sessions.Keys + s.store.responses.Keys + evaluations;
    var n := LengthBound(taken);
    var id := seq(n + 1, _ => 'x');
    assert id !in taken;
    e := Tick(i, World(false, None, NoObject, EvaluatorRaised, false, id));
  }

  /** Progress: from any reachable state, every way of running the threads that are there stops
      within `WorkLeft` steps; it can only stop with every thread over, and then every stored
      evaluation is completed, stubbed or failed. */
  lemma {:induction false} EveryDrainSettles(events: seq<Event>, drain: seq<Event>)
    requires AllWork(Run(START, events), drain)
    ensures |drain| <= WorkLeft(Run(START, events).threads)
    ensures var s := Run(START, events + drain);
            (exists e :: IsWork(s, e)) ||
            (forall sid :: sid in s.store.evaluations ==> IsFinal(TagOf(s.store.evaluations[sid], Status)))
  {
    hide IsWork, Apply;
    WorkIsBounded(Run(START, events), drain);
    RunConcat(START, events, drain);
    var s := Run(START, events + drain);
    if i :| 0 <= i < |s.threads| && !IsOver(s.threads[i]) {
      var e := CanWork(s, i);
    } else {
      forall sid | sid in s.store.evaluations
        ensures IsFinal(TagOf(s.store.evaluations[sid], Status))
      {
        QuietMeansSettled(events + drain, sid);
      }
    }
  }
}
