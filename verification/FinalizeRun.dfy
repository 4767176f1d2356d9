/**
 finalize-run (cmd/jamsesh/finalizecmd): preflight, fetch source, cherry-pick and the
 cleanup that puts the user's checkout back. Git is an abstract state; whether each
 command and prompt works is given by a World, and so is the schedule: where an
 interrupt lands and how many turns of its loop the watcher gets before the process
 is gone.
 */
module FinalizeRun {
  import opened Wrappers
  import opened CleanupStack

  datatype Head = OnBranch(name: string) | Detached(sha: string)

  /** Uncommitted changes; Conflicted is a halted cherry-pick. */
  datatype Work = Clean | Edits(text: string) | Conflicted

  datatype StashEntry = StashEntry(message: string, work: Work)

  const REMOTE := "jamsesh"

  datatype Answer = Yes | No | PromptError

  datatype Mode = Squash | Preserve | OtherMode

  datatype PickResult = Picked | PickConflict | PickFailed

  /** Points of the main goroutine. The watcher locks the stack at one of them, if the run is interrupted. */
  datatype Point = Never | BeforeTasks | AfterTasks | BeforeRemoteTask | AfterRemoteTask | AfterExecute | AtExit

  datatype Plan = Plan(id: string, target: string, base: string, commits: nat, mode: Mode)

  datatype World = World(
    insideRepo: bool,
    originHasTarget: bool,
    statusWorks: bool,
    stashPrompt: Answer,
    stashWorks: bool,
    originReachable: bool,
    proceed: Answer,
    localPath: bool,          // a usable local_path: no remote is needed
    tokenIssued: bool,
    remoteUrl: string,
    remoteAddWorks: bool,
    fetchWorks: bool,
    identitySet: bool,
    checkoutWorks: bool,
    pick: PickResult,
    commitWorks: bool,
    leftover: Work,           // what a failed pick or commit leaves in the working tree
    interrupt: Point,
    turns: Point -> nat)      // turns of the watcher's loop while the main goroutine is there

  datatype Exit =
    | PreflightFailed
    | PromptFailed
    | Declined
    | NoFetchSource
    | FetchFailed
    | NoIdentity
    | ExecuteFailed
    | Conflict
    | Done

  datatype Cleanup = StashPop | Restore(branch: string) | RemoveRemote | NoCleanup

  datatype Preflight = Preflight(originalBranch: Option<string>, stashed: bool)

  function StashMessage(plan: Plan): string {
    "jamsesh finalize-run " + plan.id
  }

  /** The checkout. `poppedOn` is HEAD at the moment our stash was popped. */
  datatype Git = Git(
    head: Head,
    branches: set<string>,
    stash: seq<StashEntry>,
    remotes: map<string, string>,
    work: Work,
    poppedOn: Option<Head>)

  /** A cleanup command, when git can carry it out. */
  function Perform(g: Git, c: Cleanup): Git {
    match c
    case NoCleanup => g
    case RemoveRemote => g.(remotes := g.remotes - {REMOTE})
    case Restore(b) => if b in g.branches then g.(head := OnBranch(b)) else g
    case StashPop =>
      if g.stash == [] then g
      else g.(work := g.stash[0].work, stash := g.stash[1..], poppedOn := Some(g.head))
  }

  function PerformAll(g: Git, todo: seq<Task<Cleanup>>): Git
    decreases |todo|
  {
    if todo == [] then g else PerformAll(Perform(g, todo[0].action), todo[1..])
  }

  /** The last preflight check fails after the user's changes were stashed. */
  predicate Stranded(g: Git, plan: Plan, w: World) {
    && w.insideRepo && plan.target !in g.branches && !w.originHasTarget && w.statusWorks
    && g.work != Clean && w.stashPrompt == Yes && w.stashWorks && !w.originReachable
  }

  /** The user's changes put aside under our message, if there are any. */
  function Stashed(g: Git, plan: Plan): Git {
    if g.work == Clean then g
    else g.(stash := [StashEntry(StashMessage(plan), g.work)] + g.stash, work := Clean)
  }

  /** The tasks registered after preflight: the branch restore sits above the stash pop. */
  function Registered(g: Git): seq<Task<Cleanup>> {
    (if g.work != Clean then [Task(StashPop, true)] else [])
    + (if g.head.OnBranch? then [Task(Restore(g.head.name), true)] else [])
  }

  /** All checks of runPreflight pass. */
  predicate PreflightPasses(g: Git, plan: Plan, w: World) {
    && w.insideRepo && plan.target !in g.branches && !w.originHasTarget && w.statusWorks
    && (g.work != Clean ==> w.stashPrompt == Yes && w.stashWorks) && w.originReachable
  }

  predicate SourceChosen(w: World) {
    w.localPath || (w.tokenIssued && w.remoteAddWorks)
  }

  function ExecuteExit(plan: Plan, w: World): Exit {
    if plan.commits == 0 || !w.checkoutWorks || plan.mode == OtherMode || w.pick == PickFailed then ExecuteFailed
    else if w.pick == PickConflict then Conflict
    else if plan.mode == Squash && !w.commitWorks then ExecuteFailed
    else Done
  }

  /** How the command ends, whatever the watcher does. */
  function ExitOf(g: Git, plan: Plan, w: World): Exit {
    if !PreflightPasses(g, plan, w) then PreflightFailed
    else if w.proceed == PromptError then PromptFailed
    else if w.proceed == No then Declined
    else if !SourceChosen(w) then NoFetchSource
    else if !w.fetchWorks then FetchFailed
    else if !w.identitySet then NoIdentity
    else ExecuteExit(plan, w)
  }

  /** The watcher's loop in progress: what it grabbed under the lock, and how many of those it has yet to look at. */
  class Watcher {
    var grabbed: seq<Task<Cleanup>>
    var left: nat

    constructor ()
      ensures grabbed == [] && left == 0
    {
      grabbed, left := [], 0;
    }

    ghost predicate Valid()
      reads this
    {
      left <= |grabbed|
    }

    /** Nothing it has yet to look at is due after an abort. */
    ghost predicate Idle()
      reads this
    {
      Valid() && forall i | 0 <= i < left :: grabbed[i].conditional
    }
  }

  /** The checkout after n more turns of an aborting drain over tasks[..left]. */
  function AfterTurns(g: Git, tasks: seq<Task<Cleanup>>, left: nat, n: nat): Git
    requires left <= |tasks|
    decreases n
  {
    if n == 0 || left == 0 then g else
      var t := tasks[left - 1];
      AfterTurns(if Due(t, Aborted) then Perform(g, t.action) else g, tasks, left - 1, n - 1)
  }

  function LeftAfter(left: nat, n: nat): nat {
    if n <= left then left - n else 0
  }

  class Repo {
    var g: Git

    constructor (g: Git)
      ensures this.g == g
    {
      this.g := g;
    }

    /** runPreflight; None when a check bails. */
    method RunPreflight(plan: Plan, w: World) returns (r: Option<Preflight>)
      modifies this
      ensures r.Some? ==>
                && plan.target !in g.branches && g == Stashed(old(g), plan)
                && r.value.originalBranch == (if g.head.OnBranch? then Some(g.head.name) else None)
                && (r.value.stashed <==> old(g).work != Clean)
      ensures r.None? ==> g == if Stranded(old(g), plan, w) then Stashed(old(g), plan) else old(g)
      ensures r.Some? <==> PreflightPasses(old(g), plan, w)
    {
      if !w.insideRepo || plan.target in g.branches || w.originHasTarget || !w.statusWorks {
        return None;
      }
      var stashed := false;
      if g.work != Clean {
        if w.stashPrompt != Yes || !w.stashWorks {
          return None;
        }
        g := g.(stash := [StashEntry(StashMessage(plan), g.work)] + g.stash, work := Clean);
        stashed := true;
      }
      var original := if g.head.OnBranch? then Some(g.head.name) else None;
      if !w.originReachable {
        return None;
      }
      r := Some(Preflight(original, stashed));
    }

    /** chooseFetchSource: the cleanup it hands back, or None. */
    method ChooseFetchSource(w: World) returns (r: Option<Cleanup>)
      modifies this
      ensures w.localPath ==> r == Some(NoCleanup) && g == old(g)
      ensures !w.localPath && r.Some? ==>
                r.value == RemoveRemote && g == old(g).(remotes := (old(g).remotes - {REMOTE})[REMOTE := w.remoteUrl])
      ensures r.None? ==> g == old(g) || g == old(g).(remotes := old(g).remotes - {REMOTE})
      ensures r.Some? <==> SourceChosen(w)
    {
      if w.localPath {
        return Some(NoCleanup);
      }
      if !w.tokenIssued {
        return None;
      }
      g := g.(remotes := g.remotes - {REMOTE});
      if !w.remoteAddWorks {
        return None;
      }
      g := g.(remotes := g.remotes[REMOTE := w.remoteUrl]);
      r := Some(RemoveRemote);
    }

    /** execute: branch creation, then one cherry-pick over all commits. */
    method Execute(plan: Plan, w: World) returns (exit: Exit)
      modifies this
      ensures exit == ExecuteExit(plan, w)
      ensures g.stash == old(g).stash && g.remotes == old(g).remotes && g.poppedOn == old(g).poppedOn
      ensures old(g).branches <= g.branches
      ensures exit.Done? ==>
                && g.head == OnBranch(plan.target) && g.branches == old(g).branches + {plan.target}
                && g.work == old(g).work
      ensures exit.Conflict? ==>
                g.head == OnBranch(plan.target) && g.branches == old(g).branches + {plan.target} && g.work == Conflicted
      // A failure before the branch exists changes nothing; a later one stays on the new branch.
      ensures exit.ExecuteFailed? ==>
                if plan.commits == 0 || !w.checkoutWorks then g == old(g)
                else && g.head == OnBranch(plan.target) && g.branches == old(g).branches + {plan.target}
                     && g.work == if plan.mode == OtherMode then old(g).work else w.leftover
    {
      if plan.commits == 0 || !w.checkoutWorks {
        return ExecuteFailed;
      }
      g := g.(head := OnBranch(plan.target), branches := g.branches + {plan.target});
      if plan.mode == OtherMode {
        return ExecuteFailed;
      }
      if w.pick == PickFailed {
        g := g.(work := w.leftover);
        return ExecuteFailed;
      }
      if w.pick == PickConflict {
        g := g.(work := Conflicted);
        return Conflict;
      }
      if plan.mode == Squash && !w.commitWorks {
        g := g.(work := w.leftover);
        return ExecuteFailed;
      }
      exit := Done;
    }

    /** The main goroutine's own drain; it does nothing and waits for nothing when the watcher was first. */
    method Cleanup(stack: Stack<Cleanup>, outcome: Outcome)
      modifies this, stack
      ensures g == if old(stack.drained) then old(g) else PerformAll(old(g), Drained(old(stack.tasks), outcome))
      ensures stack.drained && stack.tasks == if old(stack.drained) then old(stack.tasks) else []
    {
      var todo := stack.Run(outcome);
      for i := 0 to |todo|
        invariant PerformAll(g, todo[i..]) == PerformAll(old(g), todo)
        invariant stack.drained && stack.tasks == if old(stack.drained) then old(stack.tasks) else []
      {
        assert todo[i..][1..] == todo[i + 1..];
        g := Perform(g, todo[i].action);
      }
    }

    /** What the watcher does while the main goroutine is here: lock, if the interrupt lands, and some turns. */
    method Watch(stack: Stack<Cleanup>, watcher: Watcher, w: World, here: Point)
      requires watcher.Valid()
      modifies this, stack, watcher
      ensures watcher.Valid()
      ensures stack.drained <==> old(stack.drained) || w.interrupt == here
      ensures var grabs := w.interrupt == here && !old(stack.drained);
              var left := if grabs then |old(stack.tasks)| else old(watcher.left);
              && stack.tasks == (if grabs then [] else old(stack.tasks))
              && watcher.grabbed == (if grabs then old(stack.tasks) else old(watcher.grabbed))
              && watcher.left == LeftAfter(left, w.turns(here))
              && g == AfterTurns(old(g), watcher.grabbed, left, w.turns(here))
    {
      if w.interrupt == here {
        var grabbed := stack.Grab();
        if grabbed.Some? {
          watcher.grabbed, watcher.left := grabbed.value, |grabbed.value|;
        }
      }
      var n: nat := w.turns(here);
      ghost var left := watcher.left;
      while n > 0 && watcher.left > 0
        invariant watcher.Valid() && watcher.grabbed == (if w.interrupt == here && !old(stack.drained) then old(stack.tasks) else old(watcher.grabbed))
        invariant stack.drained <==> old(stack.drained) || w.interrupt == here
        invariant stack.tasks == if w.interrupt == here && !old(stack.drained) then [] else old(stack.tasks)
        invariant n <= w.turns(here) && LeftAfter(watcher.left, n) == LeftAfter(left, w.turns(here))
        invariant AfterTurns(g, watcher.grabbed, watcher.left, n) == AfterTurns(old(g), watcher.grabbed, left, w.turns(here))
      {
        var t := watcher.grabbed[watcher.left - 1];
        if Due(t, Aborted) {
          g := Perform(g, t.action);
        }
        watcher.left := watcher.left - 1;
        n := n - 1;
      }
    }
  }

  // ---------------------------------------------------------------------------
  // What a drain does to the checkout
  // ---------------------------------------------------------------------------

  /** The stack after fetch-source selection. */
  function WithSource(g: Git, source: Cleanup): seq<Task<Cleanup>> {
    Registered(g) + [Task(source, false)]
  }

  lemma {:induction false} DrainedSum(a: seq<Task<Cleanup>>, t: Task<Cleanup>, outcome: Outcome)
    ensures Drained(a + [t], outcome) == (if Due(t, outcome) then [t] else []) + Drained(a, outcome)
  {
    assert (a + [t])[..|a|] == a;
  }

  lemma {:induction false} DrainedOne(t: Task<Cleanup>, outcome: Outcome)
    ensures Drained([t], outcome) == if Due(t, outcome) then [t] else []
  {
    assert [t][..0] == [];
  }

  lemma {:induction false} RegisteredDrains(g: Git)
    ensures Drained(Registered(g), Aborted) == []
    ensures Drained(Registered(g), Succeeded) ==
            (if g.head.OnBranch? then [Task(Restore(g.head.name), true)] else [])
            + (if g.work != Clean then [Task(StashPop, true)] else [])
  {
    var pop: seq<Task<Cleanup>> := if g.work != Clean then [Task(StashPop, true)] else [];
    DrainedOne(Task(StashPop, true), Aborted);
    DrainedOne(Task(StashPop, true), Succeeded);
    assert Drained(pop, Aborted) == [] && Drained(pop, Succeeded) == pop;
    hide Drained;
    if g.head.OnBranch? {
      DrainedSum(pop, Task(Restore(g.head.name), true), Aborted);
      DrainedSum(pop, Task(Restore(g.head.name), true), Succeeded);
    } else {
      assert Registered(g) == pop;
    }
  }

  /**
   After preflight stashed g0 and the run left HEAD anywhere: a successful drain of
   the registered tasks returns to the original branch first and pops there.
   */
  lemma {:induction false} SuccessRestores(g0: Git, g: Git, plan: Plan)
    requires g0.head.OnBranch? ==> g0.head.name in g.branches
    requires g.stash == Stashed(g0, plan).stash
    ensures var r := PerformAll(g, Drained(Registered(g0), Succeeded));
            && r.branches == g.branches && r.remotes == g.remotes
            && r.head == (if g0.head.OnBranch? then g0.head else g.head)
            && r.stash == g0.stash
            && r.work == (if g0.work != Clean then g0.work else g.work)
            && (g0.work != Clean ==> r.poppedOn == Some(r.head))
  {
    RegisteredDrains(g0);
    var todo := Drained(Registered(g0), Succeeded);
    var g1 := if g0.head.OnBranch? then Perform(g, Restore(g0.head.name)) else g;
    if g0.head.OnBranch? {
      assert todo[1..] == if g0.work != Clean then [Task(StashPop, true)] else [];
    }
    if g0.work != Clean {
      assert g1.stash[1..] == g0.stash;
      var pop: seq<Task<Cleanup>> := [Task(StashPop, true)];
      assert pop[1..] == [];
      assert PerformAll(g1, pop) == Perform(g1, StashPop);
    }
  }

  lemma {:induction false} SourceDrains(g0: Git, g: Git, source: Cleanup, outcome: Outcome)
    ensures PerformAll(g, Drained(WithSource(g0, source), outcome))
         == PerformAll(Perform(g, source), Drained(Registered(g0), outcome))
  {
    DrainedSum(Registered(g0), Task(source, false), outcome);
    var todo := Drained(WithSource(g0, source), outcome);
    assert todo == [Task(source, false)] + Drained(Registered(g0), outcome);
    assert todo[1..] == Drained(Registered(g0), outcome);
  }

  /** An aborted drain touches nothing but the fetch source. */
  lemma {:induction false} AbortedDrains(g0: Git, g: Git, source: Cleanup)
    ensures PerformAll(g, Drained(Registered(g0), Aborted)) == g
    ensures PerformAll(g, Drained(WithSource(g0, source), Aborted)) == Perform(g, source)
  {
    RegisteredDrains(g0);
    SourceDrains(g0, g, source, Aborted);
  }

  /** Turns over conditional tasks do nothing after an abort. */
  lemma {:induction false} IdleTurns(g: Git, tasks: seq<Task<Cleanup>>, left: nat, n: nat)
    requires left <= |tasks| && forall i | 0 <= i < left :: tasks[i].conditional
    ensures AfterTurns(g, tasks, left, n) == g
    decreases n
  {
    if n > 0 && left > 0 {
      IdleTurns(g, tasks, left - 1, n - 1);
    }
  }

  /** The fetch source's cleanup is on top: the first turn performs it, later ones do nothing. */
  lemma {:induction false} SourceTurns(g0: Git, g: Git, source: Cleanup, n: nat)
    ensures var tasks := WithSource(g0, source);
            && AfterTurns(g, tasks, |tasks|, n) == (if n == 0 then g else Perform(g, source))
            && forall i | 0 <= i < |tasks| - 1 :: tasks[i].conditional
  {
    var tasks := WithSource(g0, source);
    assert tasks[|tasks| - 1] == Task(source, false);
    assert forall i | 0 <= i < |tasks| - 1 :: tasks[i] == Registered(g0)[i];
    if n > 0 {
      IdleTurns(Perform(g, source), tasks, |tasks| - 1, n - 1);
    }
  }

  // ---------------------------------------------------------------------------
  // The command
  // ---------------------------------------------------------------------------

  /** A fetch source was chosen before the run ended. */
  predicate PastSource(exit: Exit) {
    exit.FetchFailed? || exit.NoIdentity? || exit.ExecuteFailed? || exit.Conflict? || exit.Done?
  }

  /** The stack was drained before the remote's cleanup could be pushed. */
  predicate DrainedTooEarly(w: World) {
    w.interrupt == BeforeTasks || w.interrupt == AfterTasks || w.interrupt == BeforeRemoteTask
  }

  predicate Executed(exit: Exit) {
    exit.ExecuteFailed? || exit.Conflict? || exit.Done?
  }

  /** The watcher locked the stack with the remote's cleanup on it. */
  predicate Landed(w: World, exit: Exit) {
    w.interrupt == AfterRemoteTask || (w.interrupt == AfterExecute && Executed(exit))
  }

  /** Turns of the watcher's loop from its lock to the end of the command's body. */
  function TurnsInBody(w: World, exit: Exit): nat {
    (if w.interrupt == AfterRemoteTask then w.turns(AfterRemoteTask) else 0)
    + (if Executed(exit) then w.turns(AfterExecute) else 0)
  }

  /** The process exits before the watcher's loop reached the remote's cleanup. */
  predicate CutShort(w: World, exit: Exit) {
    Landed(w, exit) && TurnsInBody(w, exit) + w.turns(AtExit) == 0
  }

  /** No interrupt drained the stack before the run's own drain. */
  predicate Undisturbed(w: World, exit: Exit) {
    if exit.Declined? then w.interrupt != BeforeTasks && w.interrupt != AfterTasks
    else w.interrupt == Never || w.interrupt == AtExit
  }

  /** Registers the conditional cleanups. */
  method RegisterTasks(stack: Stack<Cleanup>, pre: Preflight, ghost g0: Git)
    requires pre.originalBranch == if g0.head.OnBranch? then Some(g0.head.name) else None
    requires pre.stashed <==> g0.work != Clean
    modifies stack
    ensures stack.drained == old(stack.drained)
    ensures stack.tasks == if stack.drained then old(stack.tasks) else old(stack.tasks) + Registered(g0)
  {
    if pre.stashed {
      stack.Push(StashPop, true);
    }
    if pre.originalBranch.Some? {
      stack.Push(Restore(pre.originalBranch.value), true);
    }
    assert !stack.drained ==> stack.tasks == old(stack.tasks) + Registered(g0);
  }

  /** The stack between preflight and the proceed prompt. */
  method SetUp(repo: Repo, stack: Stack<Cleanup>, watcher: Watcher, pre: Preflight, w: World, ghost g0: Git)
    requires pre.originalBranch == if g0.head.OnBranch? then Some(g0.head.name) else None
    requires pre.stashed <==> g0.work != Clean
    requires !stack.drained && stack.tasks == [] && watcher.Idle()
    modifies repo, stack, watcher
    ensures repo.g == old(repo.g) && watcher.Idle()
    ensures if w.interrupt == BeforeTasks || w.interrupt == AfterTasks
            then stack.drained && stack.tasks == []
            else !stack.drained && stack.tasks == Registered(g0)
  {
    WatchIdle(repo, stack, watcher, w, BeforeTasks);
    RegisterTasks(stack, pre, g0);
    assert [] + Registered(g0) == Registered(g0);
    WatchIdle(repo, stack, watcher, w, AfterTasks);
  }

  /** The watcher at a point where nothing it has or could grab is due after an abort. */
  method WatchIdle(repo: Repo, stack: Stack<Cleanup>, watcher: Watcher, w: World, here: Point)
    requires watcher.Idle() && forall i | 0 <= i < |stack.tasks| :: stack.tasks[i].conditional
    modifies repo, stack, watcher
    ensures watcher.Idle() && repo.g == old(repo.g)
    ensures stack.drained <==> old(stack.drained) || w.interrupt == here
    ensures stack.tasks == if w.interrupt == here && !old(stack.drained) then [] else old(stack.tasks)
  {
    ghost var grabs := w.interrupt == here && !stack.drained;
    IdleTurns(repo.g, if grabs then stack.tasks else watcher.grabbed,
              if grabs then |stack.tasks| else watcher.left, w.turns(here));
    repo.Watch(stack, watcher, w, here);
  }

  /** The watcher has locked the stack and not yet reached the fetch source's cleanup on top of it. */
  ghost predicate Pending(watcher: Watcher, g0: Git, source: Cleanup)
    reads watcher
  {
    watcher.grabbed == WithSource(g0, source) && watcher.left == |watcher.grabbed|
  }

  /** Stack and watcher once the source's cleanup was pushed, in time or too late. */
  ghost predicate PastPush(stack: Stack<Cleanup>, watcher: Watcher, g0: Git, source: Cleanup)
    reads stack, watcher
  {
    if stack.drained then stack.tasks == [] && (watcher.Idle() || Pending(watcher, g0, source))
    else stack.tasks == WithSource(g0, source) && watcher.Idle()
  }

  /** The watcher at a point after the push: its first turn from the lock on performs the source's cleanup. */
  method WatchSource(repo: Repo, stack: Stack<Cleanup>, watcher: Watcher, w: World, here: Point,
                     ghost g0: Git, ghost source: Cleanup)
    requires PastPush(stack, watcher, g0, source)
    modifies repo, stack, watcher
    ensures PastPush(stack, watcher, g0, source)
    ensures stack.drained <==> old(stack.drained) || w.interrupt == here
    ensures var pending := old(Pending(watcher, g0, source)) || (w.interrupt == here && !old(stack.drained));
            && (Pending(watcher, g0, source) <==> pending && w.turns(here) == 0)
            && repo.g == if pending && w.turns(here) > 0 then Perform(old(repo.g), source) else old(repo.g)
  {
    ghost var g := repo.g;
    SourceTurns(g0, g, source, w.turns(here));
    PendingIsNotIdle(watcher, g0, source);
    if watcher.Idle() {
      IdleTurns(g, watcher.grabbed, watcher.left, w.turns(here));
    }
    repo.Watch(stack, watcher, w, here);
    PendingIsNotIdle(watcher, g0, source);
  }

  lemma {:induction false} PendingIsNotIdle(watcher: Watcher, g0: Git, source: Cleanup)
    ensures !(Pending(watcher, g0, source) && watcher.Idle())
  {
    var tasks := WithSource(g0, source);
    assert tasks[|tasks| - 1] == Task(source, false);
  }

  /** Steps 7 to 10, up to the point where the deferred drain runs. */
  method FetchAndExecute(repo: Repo, stack: Stack<Cleanup>, watcher: Watcher, plan: Plan, w: World, ghost g0: Git)
    returns (exit: Exit, ghost source: Cleanup)
    requires repo.g == Stashed(g0, plan) && watcher.Idle()
    requires if w.interrupt == BeforeTasks || w.interrupt == AfterTasks
             then stack.drained && stack.tasks == []
             else !stack.drained && stack.tasks == Registered(g0)
    modifies repo, stack, watcher
    ensures exit == if !SourceChosen(w) then NoFetchSource else if !w.fetchWorks then FetchFailed
                    else if !w.identitySet then NoIdentity else ExecuteExit(plan, w)
    ensures source == if w.localPath then NoCleanup else RemoveRemote
    ensures repo.g.stash == Stashed(g0, plan).stash && g0.branches <= repo.g.branches
    ensures exit.NoFetchSource? ==>
              && repo.g == Stashed(g0, plan).(remotes := repo.g.remotes)
              && (repo.g.remotes == g0.remotes || repo.g.remotes == g0.remotes - {REMOTE})
              && stack.drained == old(stack.drained) && stack.tasks == old(stack.tasks) && watcher.Idle()
    ensures PastSource(exit) ==>
              && PastPush(stack, watcher, g0, source)
              && (stack.drained <==> DrainedTooEarly(w) || Landed(w, exit))
              && (Pending(watcher, g0, source) <==> Landed(w, exit) && TurnsInBody(w, exit) == 0)
              && (!w.localPath ==>
                    (REMOTE in repo.g.remotes <==> !(Landed(w, exit) && TurnsInBody(w, exit) > 0)))
    ensures exit.Done? ==>
              && repo.g.head == OnBranch(plan.target) && repo.g.branches == g0.branches + {plan.target}
              && repo.g.work == Clean
  {
    hide PerformAll, Drained, WithSource, AfterTurns;
    source := if w.localPath then NoCleanup else RemoveRemote;
    var fs := repo.ChooseFetchSource(w);
    if fs.None? {
      return NoFetchSource, source;
    }
    WatchIdle(repo, stack, watcher, w, BeforeRemoteTask);
    stack.Push(fs.value, false);
    assert !stack.drained ==> stack.tasks == WithSource(g0, source) by { PushedSource(g0, source); }
    PendingIsNotIdle(watcher, g0, source);
    exit := FetchAndPick(repo, stack, watcher, plan, w, g0, source);
  }

  /** The part of it after the push. */
  method FetchAndPick(repo: Repo, stack: Stack<Cleanup>, watcher: Watcher, plan: Plan, w: World, ghost g0: Git, ghost source: Cleanup)
    returns (exit: Exit)
    requires PastPush(stack, watcher, g0, source) && watcher.Idle() && (stack.drained <==> DrainedTooEarly(w))
    requires source == if w.localPath then NoCleanup else RemoveRemote
    modifies repo, stack, watcher
    ensures exit == if !w.fetchWorks then FetchFailed else if !w.identitySet then NoIdentity else ExecuteExit(plan, w)
    ensures repo.g.stash == old(repo.g.stash) && old(repo.g.branches) <= repo.g.branches
    ensures PastPush(stack, watcher, g0, source)
    ensures stack.drained <==> DrainedTooEarly(w) || Landed(w, exit)
    ensures Pending(watcher, g0, source) <==> Landed(w, exit) && TurnsInBody(w, exit) == 0
    ensures repo.g.remotes == if !w.localPath && Landed(w, exit) && TurnsInBody(w, exit) > 0
                              then old(repo.g.remotes) - {REMOTE} else old(repo.g.remotes)
    ensures exit.Done? ==>
              && repo.g.head == OnBranch(plan.target) && repo.g.branches == old(repo.g.branches) + {plan.target}
              && repo.g.work == old(repo.g.work)
  {
    hide PerformAll, Drained, WithSource, AfterTurns, Registered, Pending;
    PendingIsNotIdle(watcher, g0, source);
    WatchSource(repo, stack, watcher, w, AfterRemoteTask, g0, source);
    if !w.fetchWorks {
      return FetchFailed;
    }
    if !w.identitySet {
      return NoIdentity;
    }
    exit := repo.Execute(plan, w);
    WatchSource(repo, stack, watcher, w, AfterExecute, g0, source);
  }

  lemma {:induction false} PushedSource(g0: Git, source: Cleanup)
    ensures Registered(g0) + [Task(source, false)] == WithSource(g0, source)
  {
  }

  /** Steps 7 to 10 with the deferred drain, and what the watcher still gets to do before the process is gone. */
  method FinishRun(repo: Repo, stack: Stack<Cleanup>, watcher: Watcher, plan: Plan, w: World, ghost g0: Git) returns (exit: Exit)
    requires repo.g == Stashed(g0, plan) && (g0.head.OnBranch? ==> g0.head.name in g0.branches) && watcher.Idle()
    requires if w.interrupt == BeforeTasks || w.interrupt == AfterTasks
             then stack.drained && stack.tasks == []
             else !stack.drained && stack.tasks == Registered(g0)
    modifies repo, stack, watcher
    ensures exit == if !SourceChosen(w) then NoFetchSource else if !w.fetchWorks then FetchFailed
                    else if !w.identitySet then NoIdentity else ExecuteExit(plan, w)
    ensures Undisturbed(w, exit) && exit.Done? ==>
              && repo.g.stash == g0.stash && repo.g.work == g0.work
              && repo.g.head == (if g0.head.OnBranch? then g0.head else OnBranch(plan.target))
              && repo.g.branches == g0.branches + {plan.target}
              && (g0.work != Clean ==> repo.g.poppedOn == Some(repo.g.head))
    ensures !exit.Done? || !Undisturbed(w, exit) ==> repo.g.stash == Stashed(g0, plan).stash
    ensures PastSource(exit) && !w.localPath ==>
              (REMOTE in repo.g.remotes <==> DrainedTooEarly(w) || CutShort(w, exit))
  {
    hide PerformAll, Drained, Registered, AfterTurns, WithSource, Pending;
    ghost var source;
    exit, source := FetchAndExecute(repo, stack, watcher, plan, w, g0);
    var outcome := if exit.Done? then Succeeded else Aborted;
    AbortedDrains(g0, repo.g, source);
    if exit.Done? {
      SuccessEnds(g0, repo.g, source, plan);
    }
    PendingIsNotIdle(watcher, g0, source);
    repo.Cleanup(stack, outcome);
    Exits(repo, stack, watcher, w, g0, source);
  }

  /** The main goroutine's drain after success: the source's cleanup, then branch and stash. */
  lemma {:induction false} SuccessEnds(g0: Git, g: Git, source: Cleanup, plan: Plan)
    requires g0.head.OnBranch? ==> g0.head.name in g.branches
    requires g.stash == Stashed(g0, plan).stash && (source.NoCleanup? || source.RemoveRemote?)
    ensures var r := PerformAll(g, Drained(WithSource(g0, source), Succeeded));
            && r.branches == g.branches && r.remotes == Perform(g, source).remotes
            && r.head == (if g0.head.OnBranch? then g0.head else g.head)
            && r.stash == g0.stash
            && r.work == (if g0.work != Clean then g0.work else g.work)
            && (g0.work != Clean ==> r.poppedOn == Some(r.head))
  {
    hide PerformAll, Drained, Registered, WithSource;
    SourceDrains(g0, g, source, Succeeded);
    SuccessRestores(g0, Perform(g, source), plan);
  }

  /** The last point: the stack is drained, so the watcher can only go on with what it has. */
  method Exits(repo: Repo, stack: Stack<Cleanup>, watcher: Watcher, w: World, ghost g0: Git, ghost source: Cleanup)
    requires stack.drained && (watcher.Idle() || Pending(watcher, g0, source))
    modifies repo, stack, watcher
    ensures repo.g == if old(Pending(watcher, g0, source)) && w.turns(AtExit) > 0 then Perform(old(repo.g), source)
                      else old(repo.g)
  {
    SourceTurns(g0, repo.g, source, w.turns(AtExit));
    PendingIsNotIdle(watcher, g0, source);
    if watcher.Idle() {
      IdleTurns(repo.g, watcher.grabbed, watcher.left, w.turns(AtExit));
    }
    repo.Watch(stack, watcher, w, AtExit);
  }

  /** finalizeRunAction from preflight on, with the deferred drain at the end. */
  method Finalize(repo: Repo, plan: Plan, w: World) returns (exit: Exit)
    requires repo.g.head.OnBranch? ==> repo.g.head.name in repo.g.branches
    modifies repo
    // A failed preflight leaves everything alone, except that it can strand the stash.
    ensures exit.PreflightFailed? ==>
              repo.g == if Stranded(old(repo.g), plan, w) then Stashed(old(repo.g), plan) else old(repo.g)
    ensures exit == ExitOf(old(repo.g), plan, w)
    // Success or decline without interrupt: original branch, original stash list, original changes.
    ensures Undisturbed(w, exit) && (exit.Done? || exit.Declined?) ==>
              && repo.g.stash == old(repo.g).stash && repo.g.work == old(repo.g).work
              && (old(repo.g).head.OnBranch? || exit.Declined? ==> repo.g.head == old(repo.g).head)
              && (old(repo.g).head.Detached? && exit.Done? ==> repo.g.head == OnBranch(plan.target))
              && (old(repo.g).work != Clean ==> repo.g.poppedOn == Some(repo.g.head))
    ensures Undisturbed(w, exit) && exit.Done? ==> repo.g.branches == old(repo.g).branches + {plan.target}
    // Any other end after preflight keeps our stash on top.
    ensures !exit.PreflightFailed? && !exit.Done? && !exit.Declined? ==>
              repo.g.stash == Stashed(old(repo.g), plan).stash
    // The stash is popped exactly when no interrupt drained the stack first.
    ensures exit.Done? || exit.Declined? ==>
              (repo.g.stash == old(repo.g).stash <==> Undisturbed(w, exit) || old(repo.g).work == Clean)
    ensures exit.Declined? ==> repo.g.remotes == old(repo.g).remotes && repo.g.branches == old(repo.g).branches
    // The https remote is left behind exactly when the stack was drained before its cleanup was pushed, or the
    // process exits before the watcher's loop reached it: nobody waits for the watcher.
    ensures PastSource(exit) && !w.localPath ==>
              (REMOTE in repo.g.remotes <==> DrainedTooEarly(w) || CutShort(w, exit))
  {
    hide Registered, PerformAll, Drained, AfterTurns, WithSource, Pending;
    ghost var g0 := repo.g;
    var pre := repo.RunPreflight(plan, w);
    if pre.None? {
      return PreflightFailed;
    }
    assert g0.work != Clean ==> Stashed(g0, plan).stash[1..] == g0.stash;
    var stack := new Stack<Cleanup>();
    var watcher := new Watcher();
    SetUp(repo, stack, watcher, pre.value, w, g0);
    if w.proceed == PromptError {
      AbortedDrains(g0, repo.g, NoCleanup);
      PendingIsNotIdle(watcher, g0, NoCleanup);
      repo.Cleanup(stack, Aborted);
      Exits(repo, stack, watcher, w, g0, NoCleanup);
      return PromptFailed;
    }
    if w.proceed == No {
      SuccessRestores(g0, repo.g, plan);
      PendingIsNotIdle(watcher, g0, NoCleanup);
      repo.Cleanup(stack, Succeeded);
      Exits(repo, stack, watcher, w, g0, NoCleanup);
      return Declined;
    }
    exit := FinishRun(repo, stack, watcher, plan, w, g0);
  }

  /**
   A run that reports success, was interrupted after its last step, and leaves the remote
   although its cleanup was pushed in time: the process is gone before the watcher's first turn.
   */
  method RemoteLeftWitness() returns (repo: Repo, w: World, exit: Exit)
    ensures fresh(repo) && exit.Done? && !DrainedTooEarly(w) && CutShort(w, exit) && REMOTE in repo.g.remotes
  {
    repo := new Repo(Git(OnBranch("main"), {"main"}, [], map[], Clean, None));
    w := World(true, false, true, Yes, true, true, Yes, false, true, "https://portal", true, true, true, true,
               Picked, true, Clean, AfterExecute, p => 0);
    exit := Finalize(repo, Plan("p", "ship", "base", 1, Preserve), w);
  }
}
