/**
 The finalize-lock protocol over every interleaving of its handlers: the rows stay
 sound, ended locks stay ended, and exactly when the session pointer follows the holder.
 */
module FinalizeLockRuns {
  import opened Wrappers
  import opened LockRows
  import opened FinalizeLocks

  // ---------------------------------------------------------------------------
  // One step
  // ---------------------------------------------------------------------------

  /** What every step does to the rows: old rows are kept, and a new one appears only by a committed acquire. */
  ghost predicate RowsKept(s: State, a: Action, s': State) {
    && Sound(s'.rows)
    && (forall k | k in s.rows :: Kept(s.rows, s'.rows, k))
    && (forall k | k in s'.rows && k !in s.rows ::
          a.AcquireCommit? && a.call in s.calls && s.calls[a.call].Acquiring? && s'.rows[k] == Fresh(s.calls[a.call]))
  }

  /** The statement a handler other than the acquire executes in this step. */
  ghost function Write(s: State, a: Action): (w: Option<Statement>)
    requires Valid(s) && Enabled(s, a)
    ensures w.Some? ==> w.value.Touch? || (w.value.Release? && w.value.at.Some?)
  {
    match a
    case PatchWrite(c) =>
      var call := s.calls[c];
      Some(if call.Patching? then Touch(call.id, call.now) else Release(call.id, Some(call.now)))
    case ReleaseWrite(c) => Some(Release(s.calls[c].id, Some(s.calls[c].now)))
    case ShipWrite(c) => Some(Release(s.calls[c].id, Some(s.calls[c].now)))
    case _ => None
  }

  lemma {:induction false} WriteStep(s: State, a: Action)
    requires Valid(s) && Enabled(s, a) && !a.AcquireCommit?
    ensures var rows', w := Step(s, a).rows, Write(s, a);
            && rows' == (if w.Some? then Written(s.rows, w.value) else s.rows)
            && Sound(rows') && rows'.Keys == s.rows.Keys
            && (forall k | k in s.rows :: Kept(s.rows, rows', k))
            && (forall k | k in s.rows && !(w.Some? && w.value.id == k) :: rows'[k] == s.rows[k])
  {
    if Write(s, a).Some? {
      ExecRows(s.rows, Write(s, a).value);
      assert Step(s, a).rows == Exec(s.rows, Write(s, a).value);
    }
    hide Exec;
  }

  /** The rows after an acquire's transaction, committed or rolled back. */
  lemma {:induction false} CommitStep(s: State, c: nat, newId: string)
    requires Valid(s) && Enabled(s, AcquireCommit(c, newId))
    ensures var rows', call := Step(s, AcquireCommit(c, newId)).rows, s.calls[c];
            && Sound(rows') && Grounded(s.rows, call)
            && (forall k | k in s.rows :: Kept(s.rows, rows', k) && rows'[k].lastActivity == s.rows[k].lastActivity)
            && (forall k | k in s.rows && call.seen != Some(k) :: rows'[k] == s.rows[k])
            && (if Takes(s.rows, call)
                then rows'.Keys == s.rows.Keys + {newId} && rows'[newId] == Fresh(call)
                else rows' == s.rows)
            && (Takes(s.rows, call) && call.seen.Some? ==>
                  rows'[call.seen.value].supersededBy ==
                  if call.stale then s.rows[call.seen.value].supersededBy else Some(newId))
  {
    var call := s.calls[c];
    assert Grounded(s.rows, call);
    CommitsIffTakes(s.rows, call, newId);
    if Committed(s.rows, call, newId).Some? {
      CommitTouchesOnlySeen(s.rows, call, newId);
    }
    hide Committed, Takes, Sound, Grounded;
  }

  lemma {:induction false} RowsStep(s: State, a: Action)
    requires Valid(s) && Enabled(s, a)
    ensures RowsKept(s, a, Step(s, a))
  {
    if a.AcquireCommit? {
      CommitStep(s, a.call, a.newId);
    } else {
      WriteStep(s, a);
    }
    hide Step, Takes, Sound, Kept;
  }

  lemma {:induction false} ValidStep(s: State, a: Action)
    requires Valid(s) && Enabled(s, a)
    ensures Valid(Step(s, a))
  {
    RowsStep(s, a);
    var s' := Step(s, a);
    forall c | c in s'.calls ensures Grounded(s'.rows, s'.calls[c]) {
      StepGrounds(s, a, c);
    }
  }

  /** A handler that did not move still finds its lock. */
  lemma {:induction false} OthersGrounded(rows: Rows, rows': Rows, c: Call)
    requires Grounded(rows, c) && forall k | k in rows :: Kept(rows, rows', k)
    ensures Grounded(rows', c)
  {
    match c
    case Acquiring(_, _, _, _, _, seen, _) =>
      assert seen.Some? ==> Kept(rows, rows', seen.value);
    case Patching(id, _, _) => assert Kept(rows, rows', id);
    case PatchExpiring(id, _, _) => assert Kept(rows, rows', id);
    case Releasing(id, _, _) => assert Kept(rows, rows', id);
    case _ =>
  }

  lemma {:induction false} StepGrounds(s: State, a: Action, c: nat)
    requires Valid(s) && Enabled(s, a) && RowsKept(s, a, Step(s, a)) && c in Step(s, a).calls
    ensures Grounded(Step(s, a).rows, Step(s, a).calls[c])
  {
    if c != a.call {
      OthersStay(s, a, c);
      hide Step, Sound, Enabled;
      OthersGrounded(s.rows, Step(s, a).rows, s.calls[c]);
    } else if a.AcquireRead? || a.PatchRead? {
      ReadGrounded(s, a);
    } else {
      MoverGrounded(s, a);
    }
  }

  predicate OfAcquireOrPatch(a: Action) {
    a.AcquireRead? || a.AcquireCommit? || a.PatchRead? || a.PatchWrite?
  }

  lemma {:induction false} AcquireOthers(s: State, a: Action, c: nat)
    requires Valid(s) && Enabled(s, a) && OfAcquireOrPatch(a) && c != a.call
    ensures c in Step(s, a).calls <==> c in s.calls
    ensures c in s.calls ==> Step(s, a).calls[c] == s.calls[c]
  {
    hide Sound, Committed, Exec, IsLockExpired, HasActive, Active, StatusOf, Lookup, ReleaseReadStep, ReleaseWriteStep,
         PointerReadStep, ShipReadStep, ShipEndStep, ShipFindStep, ShipWriteStep;
  }

  lemma {:induction false} ReleaseOthers(s: State, a: Action, c: nat)
    requires Valid(s) && Enabled(s, a) && !OfAcquireOrPatch(a) && c != a.call
    ensures c in Step(s, a).calls <==> c in s.calls
    ensures c in s.calls ==> Step(s, a).calls[c] == s.calls[c]
  {
    hide Sound, Exec, HasActive, Active, StatusOf, Lookup, AcquireReadStep, AcquireCommitStep, PatchReadStep, PatchWriteStep;
  }

  lemma {:induction false} OthersStay(s: State, a: Action, c: nat)
    requires Valid(s) && Enabled(s, a) && c in Step(s, a).calls && c != a.call
    ensures c in s.calls && Step(s, a).calls[c] == s.calls[c]
  {
    if OfAcquireOrPatch(a) {
      AcquireOthers(s, a, c);
    } else {
      ReleaseOthers(s, a, c);
    }
    hide Step;
  }

  lemma {:induction false} ReadGrounded(s: State, a: Action)
    requires Valid(s) && Enabled(s, a) && (a.AcquireRead? || a.PatchRead?) && a.call in Step(s, a).calls
    ensures Grounded(Step(s, a).rows, Step(s, a).calls[a.call])
  {
    hide Sound, Committed, Exec, IsLockExpired, HasActive, Active, StatusOf, Lookup, AcquireCommitStep, PatchWriteStep,
         ReleaseReadStep, ReleaseWriteStep, PointerReadStep, ShipReadStep, ShipEndStep, ShipFindStep, ShipWriteStep;
  }

  lemma {:induction false} MoverGrounded(s: State, a: Action)
    requires Valid(s) && Enabled(s, a) && !a.AcquireRead? && !a.PatchRead? && a.call in Step(s, a).calls
    ensures Grounded(Step(s, a).rows, Step(s, a).calls[a.call])
  {
    hide Sound, Committed, Exec, IsLockExpired, HasActive, Active, StatusOf, Lookup, AcquireReadStep, PatchReadStep;
  }

  // ---------------------------------------------------------------------------
  // The session pointer
  // ---------------------------------------------------------------------------

  /** A session with an active lock points at its holder. */
  ghost predicate PointerTracks(s: State) {
    forall k | k in s.rows && Active(s.rows[k]) :: Lookup(s.pointer, s.rows[k].session) == Some(s.rows[k].holder)
  }

  /** The clearing write lands when the session has been acquired again. */
  ghost predicate ClearsLate(s: State, a: Action) {
    a.PointerClear? && a.call in s.calls && s.calls[a.call].Clearing? && HasActive(s.rows, s.calls[a.call].session)
  }

  lemma {:induction false} CommitTracks(s: State, c: nat, newId: string)
    requires Valid(s) && Enabled(s, AcquireCommit(c, newId)) && PointerTracks(s)
    ensures PointerTracks(Step(s, AcquireCommit(c, newId)))
  {
    CommitStep(s, c, newId);
    var call, s' := s.calls[c], Step(s, AcquireCommit(c, newId));
    CommitsIffTakes(s.rows, call, newId);
    assert s'.pointer == if Takes(s.rows, call) then s.pointer[call.session := call.caller] else s.pointer;
    hide Step, Takes, Committed;
    forall k | k in s'.rows && Active(s'.rows[k])
      ensures Lookup(s'.pointer, s'.rows[k].session) == Some(s'.rows[k].holder)
    {
      if k in s.rows {
        assert Kept(s.rows, s'.rows, k);
        if newId in s'.rows {
          assert s'.rows[newId] == Fresh(call);
          assert s'.rows[k].session != call.session;
        }
      }
    }
  }

  lemma {:induction false} PointerOf(s: State, a: Action)
    requires Valid(s) && Enabled(s, a) && !a.AcquireCommit?
    ensures Step(s, a).pointer == if a.PointerClear? then s.pointer - {s.calls[a.call].session} else s.pointer
  {
    hide Sound, Grounded, Committed, Exec, IsLockExpired, HasActive, Active, StatusOf, Lookup, Found;
  }

  /** The pointer follows the active holder across a step if and only if the step does not clear late. */
  lemma {:induction false} PointerStep(s: State, a: Action)
    requires Valid(s) && Enabled(s, a) && PointerTracks(s)
    ensures PointerTracks(Step(s, a)) <==> !ClearsLate(s, a)
  {
    var s' := Step(s, a);
    if a.AcquireCommit? {
      CommitTracks(s, a.call, a.newId);
    } else {
      WriteStep(s, a);
      PointerOf(s, a);
      hide Step;
      if ClearsLate(s, a) {
        var k :| k in s.rows && Active(s.rows[k]) && s.rows[k].session == s.calls[a.call].session;
        assert s'.rows == s.rows && Lookup(s'.pointer, s.rows[k].session) == None;
      } else {
        forall k | k in s'.rows && Active(s'.rows[k])
          ensures Lookup(s'.pointer, s'.rows[k].session) == Some(s'.rows[k].holder)
        {
          assert k in s.rows && Kept(s.rows, s'.rows, k);
        }
      }
    }
  }

  // ---------------------------------------------------------------------------
  // The supersede mark
  // ---------------------------------------------------------------------------

  /** An override commits over a lock that is already marked. */
  ghost predicate Remarks(s: State, a: Action, k: string)
    requires k in s.rows
  {
    && a.AcquireCommit? && a.call in s.calls && s.calls[a.call].Acquiring?
    && s.calls[a.call].seen == Some(k) && !s.calls[a.call].stale && s.rows[k].supersededBy.Some?
    && !HasActive(s.rows, s.calls[a.call].session)
  }

  /** A mark, once set, changes exactly when a second override that read the same lock commits later. */
  lemma {:induction false} MarkStep(s: State, a: Action, k: string)
    requires Valid(s) && Enabled(s, a) && k in s.rows && s.rows[k].supersededBy.Some?
    ensures k in Step(s, a).rows
    ensures Step(s, a).rows[k].supersededBy != s.rows[k].supersededBy <==> Remarks(s, a, k)
  {
    assert SoundRow(s.rows, s.rows[k]);
    if a.AcquireCommit? {
      CommitStep(s, a.call, a.newId);
      var call := s.calls[a.call];
      hide Step, Kept, Sound, Grounded;
      if call.seen == Some(k) && !call.stale {
        if HasActive(s.rows, call.session) {
          var other :| other in s.rows && Active(s.rows[other]) && s.rows[other].session == call.session;
          assert !Takes(s.rows, call);
        }
      } else {
        hide Takes;
      }
    } else {
      WriteStep(s, a);
      hide Step, Sound, Kept, HasActive;
    }
  }

  // ---------------------------------------------------------------------------
  // Who ends a lock
  // ---------------------------------------------------------------------------

  /** The step that ends lock k, and on whose authority. */
  ghost predicate Ends(s: State, a: Action, k: string)
    requires Valid(s) && Enabled(s, a) && k in s.rows
  {
    match a
    case AcquireCommit(c, _) =>
      var call := s.calls[c];
      call.seen == Some(k) && call.caller != s.rows[k].holder
      && (call.override || IsLockExpired(s.rows[k].lastActivity, call.now))
    case PatchWrite(c) => s.calls[c].PatchExpiring? && s.calls[c].id == k && s.calls[c].caller == s.rows[k].holder
    case ReleaseWrite(c) => s.calls[c].id == k && s.calls[c].caller == s.rows[k].holder
    case ShipWrite(c) => s.calls[c].id == k
    case _ => false
  }

  /**
   An active lock ends only by its holder (a release, or a patch that found it idle), by
   shipping, or by another member who read this very lock and either finds it idle at the
   commit or asked to override.
   */
  lemma {:induction false} WhoEndsALock(s: State, a: Action, k: string)
    requires Valid(s) && Enabled(s, a) && k in s.rows && Active(s.rows[k])
    ensures k in Step(s, a).rows
    ensures !Active(Step(s, a).rows[k]) ==> Ends(s, a, k)
  {
    if a.AcquireCommit? {
      CommitStep(s, a.call, a.newId);
    } else {
      WriteStep(s, a);
      assert Write(s, a).Some? ==> Grounded(s.rows, s.calls[a.call]);
    }
    hide Step;
  }

  /** A lock that a stale takeover ends was idle at the commit, whatever its holder did since the caller read it. */
  lemma {:induction false} StaleTakeoverOnlyIdle(s: State, c: nat, newId: string, k: string)
    requires Valid(s) && Enabled(s, AcquireCommit(c, newId)) && s.calls[c].stale && k in s.rows && Active(s.rows[k])
    requires k in Step(s, AcquireCommit(c, newId)).rows && !Active(Step(s, AcquireCommit(c, newId)).rows[k])
    ensures IsLockExpired(s.rows[k].lastActivity, s.calls[c].now)
  {
    CommitStep(s, c, newId);
    hide Step;
  }

  // ---------------------------------------------------------------------------
  // The session's status
  // ---------------------------------------------------------------------------

  /** A handler that loaded the session as active writes after it has ended: an acquire that commits, or a finalize. */
  ghost predicate Resurrects(s: State, a: Action, session: string) {
    a.call in s.calls &&
    match s.calls[a.call]
    case Acquiring(of, _, _, live, _, _, _) => a.AcquireCommit? && of == session && live && Takes(s.rows, s.calls[a.call])
    case Promoting(of) => a.FinalizeWrite? && of == session
    case _ => false
  }

  /** An ended session leaves that status exactly when such a handler writes. */
  lemma {:induction false} EndedStep(s: State, a: Action, session: string)
    requires Valid(s) && Enabled(s, a) && StatusOf(s.status, session) == Ended
    ensures StatusOf(Step(s, a).status, session) != Ended <==> Resurrects(s, a, session)
  {
    if a.AcquireCommit? {
      assert Grounded(s.rows, s.calls[a.call]);
      CommitsIffTakes(s.rows, s.calls[a.call], a.newId);
      hide Takes, Committed;
    }
  }

  /** A handler at work has loaded the session as active. */
  predicate LoadedLive(c: Call, session: string) {
    match c
    case Opening(of, live) => of == session && live
    case Acquiring(of, _, _, live, _, _, _) => of == session && live
    case Promoting(of) => of == session
    case _ => false
  }

  /** The session has ended, and no handler at work still holds it for active. */
  ghost predicate Settled(s: State, session: string) {
    StatusOf(s.status, session) == Ended && forall c | c in s.calls :: !LoadedLive(s.calls[c], session)
  }

  /** A handler that moves on an ended session does not come to hold it for active. */
  lemma {:induction false} MoverSettled(s: State, a: Action, session: string)
    requires Valid(s) && Enabled(s, a) && Settled(s, session) && a.call in Step(s, a).calls
    ensures !LoadedLive(Step(s, a).calls[a.call], session)
  {
    hide Sound, Committed, Exec, IsLockExpired, HasActive, Active, Lookup, Found, Grounded;
  }

  lemma {:induction false} SettledStep(s: State, a: Action, session: string)
    requires Valid(s) && Enabled(s, a) && Settled(s, session)
    ensures Settled(Step(s, a), session)
  {
    EndedStep(s, a, session);
    forall c | c in Step(s, a).calls ensures !LoadedLive(Step(s, a).calls[c], session) {
      if c == a.call {
        MoverSettled(s, a, session);
      } else {
        OthersStay(s, a, c);
      }
    }
    hide Step, Enabled, StatusOf;
  }

  // ---------------------------------------------------------------------------
  // Runs
  // ---------------------------------------------------------------------------

  ghost predicate Feasible(s: State, run: seq<Action>)
    requires Valid(s)
    decreases |run|
  {
    run == [] || (Enabled(s, run[0]) && (ValidStep(s, run[0]); Feasible(Step(s, run[0]), run[1..])))
  }

  ghost function After(s: State, run: seq<Action>): State
    requires Valid(s) && Feasible(s, run)
    decreases |run|
  {
    if run == [] then s else
      ValidStep(s, run[0]);
      After(Step(s, run[0]), run[1..])
  }

  /** In every reachable state a session has at most one active lock. */
  lemma {:induction false} OneActiveLockAlways(s: State, run: seq<Action>)
    requires Valid(s) && Feasible(s, run)
    ensures OneActive(After(s, run).rows)
    decreases |run|
  {
    hide Step, Enabled;
    if run != [] {
      ValidStep(s, run[0]);
      OneActiveLockAlways(Step(s, run[0]), run[1..]);
    }
  }

  /** A lock that left the active set is still there, and never active again. */
  lemma {:induction false} EndedLockStaysEnded(s: State, run: seq<Action>, k: string)
    requires Valid(s) && Feasible(s, run) && k in s.rows && !Active(s.rows[k])
    ensures k in After(s, run).rows && !Active(After(s, run).rows[k])
    decreases |run|
  {
    hide Step, Enabled, Active;
    if run != [] {
      ValidStep(s, run[0]);
      RowsStep(s, run[0]);
      assert Kept(s.rows, Step(s, run[0]).rows, k);
      EndedLockStaysEnded(Step(s, run[0]), run[1..], k);
    }
  }

  ghost predicate TracksThroughout(s: State, run: seq<Action>)
    requires Valid(s) && Feasible(s, run)
    decreases |run|
  {
    PointerTracks(s) && (run == [] || (ValidStep(s, run[0]); TracksThroughout(Step(s, run[0]), run[1..])))
  }

  ghost predicate NeverClearsLate(s: State, run: seq<Action>)
    requires Valid(s) && Feasible(s, run)
    decreases |run|
  {
    run == [] || (!ClearsLate(s, run[0]) && (ValidStep(s, run[0]); NeverClearsLate(Step(s, run[0]), run[1..])))
  }

  /** Over every run: the session always points at the active lock's holder, if and only if no pointer clear lands late. */
  lemma {:induction false} PointerFollowsHolder(s: State, run: seq<Action>)
    requires Valid(s) && Feasible(s, run) && PointerTracks(s)
    ensures TracksThroughout(s, run) <==> NeverClearsLate(s, run)
    decreases |run|
  {
    hide Step, Enabled, PointerTracks, ClearsLate;
    if run != [] {
      ValidStep(s, run[0]);
      PointerStep(s, run[0]);
      var s' := Step(s, run[0]);
      if PointerTracks(s') {
        PointerFollowsHolder(s', run[1..]);
      } else {
        assert !TracksThroughout(s', run[1..]);
      }
    }
  }

  ghost predicate EndedThroughout(s: State, run: seq<Action>, session: string)
    requires Valid(s) && Feasible(s, run)
    decreases |run|
  {
    StatusOf(s.status, session) == Ended
    && (run == [] || (ValidStep(s, run[0]); EndedThroughout(Step(s, run[0]), run[1..], session)))
  }

  ghost predicate NeverResurrects(s: State, run: seq<Action>, session: string)
    requires Valid(s) && Feasible(s, run)
    decreases |run|
  {
    run == []
    || (!Resurrects(s, run[0], session) && (ValidStep(s, run[0]); NeverResurrects(Step(s, run[0]), run[1..], session)))
  }

  /** Over every run: an ended session stays ended, if and only if no handler that loaded it as active writes. */
  lemma {:induction false} EndedSessionStaysEnded(s: State, run: seq<Action>, session: string)
    requires Valid(s) && Feasible(s, run) && StatusOf(s.status, session) == Ended
    ensures EndedThroughout(s, run, session) <==> NeverResurrects(s, run, session)
    decreases |run|
  {
    hide Step, Enabled, Resurrects, StatusOf;
    if run != [] {
      ValidStep(s, run[0]);
      EndedStep(s, run[0], session);
      var s' := Step(s, run[0]);
      if StatusOf(s'.status, session) == Ended {
        EndedSessionStaysEnded(s', run[1..], session);
      } else {
        assert !EndedThroughout(s', run[1..], session);
      }
    }
  }

  /** Once the handlers that had loaded it as active are through, an ended session is ended for good. */
  lemma {:induction false} EndedForGood(s: State, run: seq<Action>, session: string)
    requires Valid(s) && Feasible(s, run) && Settled(s, session)
    ensures EndedThroughout(s, run, session) && Settled(After(s, run), session)
    decreases |run|
  {
    hide Step, Enabled;
    if run != [] {
      ValidStep(s, run[0]);
      SettledStep(s, run[0], session);
      EndedForGood(Step(s, run[0]), run[1..], session);
    }
  }

  // ---------------------------------------------------------------------------
  // Refreshes between a patch's read and its write
  // ---------------------------------------------------------------------------

  /** The activity this step's patch writes to lock id, if it is one. */
  ghost function Refresh(s: State, a: Action, id: string): Option<int>
    requires Valid(s) && Enabled(s, a)
  {
    if a.PatchWrite? && s.calls[a.call].Patching? && s.calls[a.call].id == id then Some(s.calls[a.call].now) else None
  }

  /** The activity the last patch of a run wrote to lock id. */
  ghost function LastRefresh(s: State, run: seq<Action>, id: string): Option<int>
    requires Valid(s) && Feasible(s, run)
    decreases |run|
  {
    if run == [] then None else
      ValidStep(s, run[0]);
      var later := LastRefresh(Step(s, run[0]), run[1..], id);
      if later.Some? then later else Refresh(s, run[0], id)
  }

  lemma {:induction false} ActivityStep(s: State, a: Action, id: string)
    requires Valid(s) && Enabled(s, a) && id in s.rows
    ensures id in Step(s, a).rows
    ensures Step(s, a).rows[id].lastActivity ==
            if Refresh(s, a, id).Some? then Refresh(s, a, id).value else s.rows[id].lastActivity
  {
    if a.AcquireCommit? {
      CommitStep(s, a.call, a.newId);
    } else {
      WriteStep(s, a);
      assert a.PatchWrite? ==> Grounded(s.rows, s.calls[a.call]);
    }
    hide Step, Takes, Active;
  }

  lemma {:induction false} ActivityAfter(s: State, run: seq<Action>, id: string)
    requires Valid(s) && Feasible(s, run) && id in s.rows
    ensures id in After(s, run).rows
    ensures After(s, run).rows[id].lastActivity ==
            if LastRefresh(s, run, id).Some? then LastRefresh(s, run, id).value else s.rows[id].lastActivity
    decreases |run|
  {
    hide Step, Enabled, Refresh;
    if run != [] {
      ValidStep(s, run[0]);
      ActivityStep(s, run[0], id);
      ActivityAfter(Step(s, run[0]), run[1..], id);
    }
  }

  /**
   A patch reads a lock as idle, other handlers run, then it releases the lock. The lock
   is not idle at that write if and only if another patch wrote it in between and the
   last such write is recent enough; the release happens all the same.
   */
  lemma {:induction false} IdlePatchOvertakesRefresh(s: State, c: nat, id: string, caller: string, now: int, mid: seq<Action>)
    requires Valid(s) && Enabled(s, PatchRead(c, id, caller, now)) && Valid(Step(s, PatchRead(c, id, caller, now)))
    requires var s0 := Step(s, PatchRead(c, id, caller, now));
             && c in s0.calls && s0.calls[c] == PatchExpiring(id, caller, now)
             && Feasible(s0, mid) && c in After(s0, mid).calls && After(s0, mid).calls[c] == s0.calls[c]
    ensures var s0 := Step(s, PatchRead(c, id, caller, now));
            var s1 := After(s0, mid);
            && id in s1.rows && Valid(s1) && Enabled(s1, PatchWrite(c))
            && (!IsLockExpired(s1.rows[id].lastActivity, now) <==>
                  LastRefresh(s0, mid, id).Some? && !IsLockExpired(LastRefresh(s0, mid, id).value, now))
            && id in Step(s1, PatchWrite(c)).rows && !Active(Step(s1, PatchWrite(c)).rows[id])
  {
    var s0 := Step(s, PatchRead(c, id, caller, now));
    ActivityAfter(s0, mid, id);
    ValidAfter(s0, mid);
    var s1 := After(s0, mid);
    ExecRows(s1.rows, Release(id, Some(now)));
  }

  lemma {:induction false} ValidAfter(s: State, run: seq<Action>)
    requires Valid(s) && Feasible(s, run)
    ensures Valid(After(s, run))
    decreases |run|
  {
    hide Step, Enabled;
    if run != [] {
      ValidStep(s, run[0]);
      ValidAfter(Step(s, run[0]), run[1..]);
    }
  }
}
