/**
 The LIFO cleanup stack of cmd/jamsesh/finalizecmd/cleanup.go, shared by the main
 goroutine and the watcher that drains it on SIGINT.
 */
module CleanupStack {
  import opened Wrappers

  datatype Outcome = Succeeded | Aborted

  datatype Task<T> = Task(action: T, conditional: bool)

  /** A conditional task runs only on success. */
  predicate Due<T>(t: Task<T>, outcome: Outcome) {
    !t.conditional || outcome == Succeeded
  }

  /** The tasks a drain executes, in order: last pushed first, those not due left out. */
  function Drained<T>(tasks: seq<Task<T>>, outcome: Outcome): (r: seq<Task<T>>) {
    if tasks == [] then [] else
      var last := tasks[|tasks| - 1];
      (if Due(last, outcome) then [last] else []) + Drained(tasks[..|tasks| - 1], outcome)
  }

  /** A drain executes a due task exactly as often as it was pushed, and any other never. */
  lemma {:induction false} DrainedAtMostOnce<T>(tasks: seq<Task<T>>, outcome: Outcome, t: Task<T>)
    ensures multiset(Drained(tasks, outcome))[t] == if Due(t, outcome) then multiset(tasks)[t] else 0
    decreases |tasks|
  {
    if tasks != [] {
      var init, last := tasks[..|tasks| - 1], tasks[|tasks| - 1];
      DrainedAtMostOnce(init, outcome, t);
      DrainedUnfolds(tasks, outcome);
      hide Drained;
      assert tasks == init + [last];
      assert multiset(tasks)[t] == multiset(init)[t] + (if t == last then 1 else 0);
      if Due(last, outcome) {
        assert multiset([last] + Drained(init, outcome))[t] == (if t == last then 1 else 0) + multiset(Drained(init, outcome))[t];
      }
    }
  }

  lemma {:induction false} DrainedUnfolds<T>(tasks: seq<Task<T>>, outcome: Outcome)
    requires tasks != []
    ensures var init, last := tasks[..|tasks| - 1], tasks[|tasks| - 1];
            Drained(tasks, outcome) == if Due(last, outcome) then [last] + Drained(init, outcome) else Drained(init, outcome)
  {
  }

  // ---------------------------------------------------------------------------
  // Every interleaving of pushes and drains
  // ---------------------------------------------------------------------------

  /** A drain in progress: what it grabbed under the lock and how many of those are still to do. */
  datatype Drain<T> = Drain(grabbed: seq<Task<T>>, outcome: Outcome, left: nat)

  datatype State<T> = State(
    tasks: seq<Task<T>>,
    drained: bool,
    winner: Option<Drain<T>>,
    executed: seq<Task<T>>)

  datatype Action<T> =
    | PushTask(task: Task<T>)      // Push, by either goroutine
    | RunLocked(outcome: Outcome)  // the critical section of Run, by either goroutine
    | RunNext                      // one turn of the winner's loop

  predicate Enabled<T>(s: State<T>, a: Action<T>) {
    a.RunNext? ==> s.winner.Some? && 0 < s.winner.value.left <= |s.winner.value.grabbed|
  }

  function Step<T>(s: State<T>, a: Action<T>): State<T>
    requires Enabled(s, a)
  {
    match a
    case PushTask(t) => if s.drained then s else s.(tasks := s.tasks + [t])
    case RunLocked(outcome) =>
      if s.drained then s else
        s.(drained := true, tasks := [], winner := Some(Drain(s.tasks, outcome, |s.tasks|)))
    case RunNext =>
      var d := s.winner.value;
      var t := d.grabbed[d.left - 1];
      s.(winner := Some(d.(left := d.left - 1)),
         executed := s.executed + if Due(t, d.outcome) then [t] else [])
  }

  ghost predicate Orderly<T>(s: State<T>) {
    && (s.drained <==> s.winner.Some?)
    && (s.drained ==> s.tasks == [])
    && (!s.drained ==> s.executed == [])
    && (s.drained ==>
          var d := s.winner.value;
          && d.left <= |d.grabbed|
          && s.executed + Drained(d.grabbed[..d.left], d.outcome) == Drained(d.grabbed, d.outcome))
  }

  lemma {:induction false} OrderlyStep<T>(s: State<T>, a: Action<T>)
    requires Orderly(s) && Enabled(s, a)
    ensures Orderly(Step(s, a))
    ensures s.drained ==> Step(s, a).drained && Step(s, a).winner.value.grabbed == s.winner.value.grabbed
                          && Step(s, a).winner.value.outcome == s.winner.value.outcome
  {
    if a.RunLocked? && !s.drained {
      assert s.tasks[..|s.tasks|] == s.tasks;
    }
    if a.RunNext? {
      var d := s.winner.value;
      var rest := d.grabbed[..d.left];
      assert rest[..d.left - 1] == d.grabbed[..d.left - 1] && rest[|rest| - 1] == d.grabbed[d.left - 1];
    }
  }

  ghost predicate Feasible<T>(s: State<T>, run: seq<Action<T>>)
    decreases |run|
  {
    run == [] || (Enabled(s, run[0]) && Feasible(Step(s, run[0]), run[1..]))
  }

  ghost function After<T>(s: State<T>, run: seq<Action<T>>): State<T>
    requires Feasible(s, run)
    decreases |run|
  {
    if run == [] then s else After(Step(s, run[0]), run[1..])
  }

  /** The tasks whose Push came before the first Run of the trace. */
  ghost function PushedFirst<T>(run: seq<Action<T>>): seq<Task<T>>
    decreases |run|
  {
    if run == [] || run[0].RunLocked? then []
    else (if run[0].PushTask? then [run[0].task] else []) + PushedFirst(run[1..])
  }

  /** The outcome of the first Run of the trace. */
  ghost function FirstOutcome<T>(run: seq<Action<T>>): Option<Outcome>
    decreases |run|
  {
    if run == [] then None else if run[0].RunLocked? then Some(run[0].outcome) else FirstOutcome(run[1..])
  }

  lemma {:induction false} DrainFrom<T>(s: State<T>, run: seq<Action<T>>)
    requires Orderly(s) && Feasible(s, run)
    ensures var s' := After(s, run);
            && Orderly(s')
            && (s.drained ==>
                  && s'.drained && s'.winner.value.grabbed == s.winner.value.grabbed
                  && s'.winner.value.outcome == s.winner.value.outcome)
            && (!s.drained && FirstOutcome(run).Some? ==>
                  && s'.drained && s'.winner.value.grabbed == s.tasks + PushedFirst(run)
                  && s'.winner.value.outcome == FirstOutcome(run).value)
            && (!s.drained && FirstOutcome(run).None? ==> !s'.drained)
    decreases |run|
  {
    if run != [] {
      OrderlyStep(s, run[0]);
      DrainFrom(Step(s, run[0]), run[1..]);
      if !s.drained && run[0].PushTask? {
        assert s.tasks + PushedFirst(run) == (s.tasks + [run[0].task]) + PushedFirst(run[1..]);
      }
      if !s.drained && run[0].RunLocked? {
        assert s.tasks + PushedFirst(run) == s.tasks;
      }
    }
  }

  /**
   In every interleaving: nothing runs before the first Run; after it, the executed
   tasks are a prefix of what that Run's outcome makes due of the tasks pushed before
   it, last pushed first. Later pushes and later Runs change nothing, so no task runs
   twice.
   */
  lemma {:induction false} FirstRunWins<T>(run: seq<Action<T>>)
    requires Feasible(State([], false, None, []), run)
    ensures var s := After(State([], false, None, []), run);
            && (FirstOutcome(run).None? ==> s.executed == [])
            && (FirstOutcome(run).Some? ==>
                  && s.winner.Some?
                  && s.executed <= Drained(PushedFirst(run), FirstOutcome(run).value)
                  && (s.winner.value.left == 0 ==> s.executed == Drained(PushedFirst(run), FirstOutcome(run).value)))
  {
    var init: State<T> := State([], false, None, []);
    DrainFrom(init, run);
    if FirstOutcome(run).Some? {
      var d := After(init, run).winner.value;
      assert [] + PushedFirst(run) == PushedFirst(run);
      assert d.left == 0 ==> Drained(d.grabbed[..d.left], d.outcome) == [];
    }
  }

  // ---------------------------------------------------------------------------
  // The stack itself
  // ---------------------------------------------------------------------------

  class Stack<T> {
    var tasks: seq<Task<T>>
    var drained: bool

    constructor ()
      ensures tasks == [] && !drained
    {
      tasks, drained := [], false;
    }

    /** A no-op on a drained stack. */
    method Push(action: T, conditional: bool)
      modifies this
      ensures drained == old(drained)
      ensures tasks == if drained then old(tasks) else old(tasks) + [Task(action, conditional)]
    {
      if !drained {
        tasks := tasks + [Task(action, conditional)];
      }
    }

    /** The critical section of Run: the winner takes the tasks and drains the stack, a loser gets nothing. */
    method Grab() returns (grabbed: Option<seq<Task<T>>>)
      modifies this
      ensures drained && tasks == (if old(drained) then old(tasks) else [])
      ensures grabbed == if old(drained) then None else Some(old(tasks))
    {
      if drained {
        return None;
      }
      drained := true;
      grabbed := Some(tasks);
      tasks := [];
    }

    /** The tasks this call gets to execute, in order; none if the stack was drained before. */
    method Run(outcome: Outcome) returns (todo: seq<Task<T>>)
      modifies this
      ensures drained && tasks == (if old(drained) then old(tasks) else [])
      ensures todo == if old(drained) then [] else Drained(old(tasks), outcome)
    {
      todo := [];
      var won := Grab();
      if won.None? {
        return;
      }
      var grabbed := won.value;
      hide Drained;
      var i := |grabbed|;
      assert grabbed[..i] == grabbed;
      while i > 0
        invariant 0 <= i <= |grabbed|
        invariant todo + Drained(grabbed[..i], outcome) == Drained(grabbed, outcome)
        invariant drained && tasks == []
      {
        DrainedNext(grabbed, outcome, i, todo);
        var t := grabbed[i - 1];
        if Due(t, outcome) {
          todo := todo + [t];
        }
        i := i - 1;
      }
      DrainedNothing(grabbed, outcome);
    }
  }

  lemma {:induction false} DrainedNext<T>(tasks: seq<Task<T>>, outcome: Outcome, i: nat, todo: seq<Task<T>>)
    requires 0 < i <= |tasks|
    ensures todo + Drained(tasks[..i], outcome) ==
            (if Due(tasks[i - 1], outcome) then todo + [tasks[i - 1]] else todo) + Drained(tasks[..i - 1], outcome)
  {
    assert tasks[..i][..i - 1] == tasks[..i - 1];
    assert tasks[..i][i - 1] == tasks[i - 1];
  }

  lemma {:induction false} DrainedNothing<T>(tasks: seq<Task<T>>, outcome: Outcome)
    ensures Drained(tasks[..0], outcome) == []
  {
  }
}
