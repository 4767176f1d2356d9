/** Runs from the empty table in which the finalize-lock handlers miss what their comments promise. */
module FinalizeLockWitnesses {
  import opened Wrappers
  import opened LockRows
  import opened FinalizeLocks
  import opened FinalizeLockRuns

  /** The state s is reached from the empty table by run. */
  ghost predicate Reaches(run: seq<Action>, s: State) {
    Valid(Empty) && Feasible(Empty, run) && After(Empty, run) == s && Valid(s)
  }

  lemma {:induction false} Extend(s: State, run: seq<Action>, a: Action)
    requires Valid(s) && Feasible(s, run) && Valid(After(s, run)) && Enabled(After(s, run), a)
    ensures Feasible(s, run + [a]) && After(s, run + [a]) == Step(After(s, run), a)
    decreases |run|
  {
    hide Step, Enabled, Valid;
    if run == [] {
      assert (run + [a])[1..] == [];
      ValidStep(s, a);
    } else {
      ValidStep(s, run[0]);
      Extend(Step(s, run[0]), run[1..], a);
      assert (run + [a])[1..] == run[1..] + [a];
    }
  }

  lemma {:induction false} Go(run: seq<Action>, s: State, a: Action, s': State) returns (longer: seq<Action>)
    requires Reaches(run, s) && Enabled(s, a) && Step(s, a) == s'
    ensures Reaches(longer, s')
  {
    hide Step, Enabled, Valid;
    Extend(Empty, run, a);
    ValidStep(s, a);
    longer := run + [a];
  }

  lemma {:induction false} Nothing()
    ensures Reaches([], Empty)
  {
  }

  function Held(holder: string, at: int): Lock {
    Lock("s", holder, at, at, None, None)
  }

  function Asking(caller: string, override: bool, live: bool, now: int, seen: Option<string>): Call {
    Acquiring("s", caller, override, live, now, seen, false)
  }

  /** A call that read no active lock inserts into rows without one. */
  lemma {:induction false} FreshCommit(rows: Rows, caller: string, live: bool, now: int, newId: string)
    requires OneActive(rows) && !HasActive(rows, "s") && newId !in rows
    ensures Committed(rows, Asking(caller, false, live, now, None), newId) == Some(rows[newId := Held(caller, now)])
  {
    InsertRefused(rows, newId, Held(caller, now));
  }

  // ---------------------------------------------------------------------------
  // ann acquires lock x at time 0
  // ---------------------------------------------------------------------------

  const A0 := Empty.(calls := map[0 := Opening("s", true)])
  const A1 := Empty.(calls := map[0 := Asking("ann", false, true, 0, None)])
  const A2 := State(map["x" := Held("ann", 0)], map["s" := "ann"], map["s" := Finalizing], map[])

  lemma {:induction false} AnnAsks()
    ensures Enabled(Empty, SessionRead(0, "s")) && Valid(Empty) && Step(Empty, SessionRead(0, "s")) == A0
    ensures Valid(A0) && Enabled(A0, AcquireRead(0, "s", "ann", false, 0, None))
    ensures Step(A0, AcquireRead(0, "s", "ann", false, 0, None)) == A1 && Valid(A1)
  {
    assert A0.calls[0 := Asking("ann", false, true, 0, None)] == A1.calls;
  }

  lemma {:induction false} AnnCommits()
    requires Valid(A1)
    ensures Enabled(A1, AcquireCommit(0, "x")) && Step(A1, AcquireCommit(0, "x")) == A2
  {
    FreshCommit(map[], "ann", true, 0, "x");
    assert A1.calls - {0} == map[];
    hide Committed;
  }

  lemma {:induction false} AnnAcquires() returns (run: seq<Action>)
    ensures Reaches(run, A2)
  {
    Nothing();
    AnnAsks();
    AnnCommits();
    hide Step, Enabled, Valid;
    run := Go([], Empty, SessionRead(0, "s"), A0);
    run := Go(run, A0, AcquireRead(0, "s", "ann", false, 0, None), A1);
    run := Go(run, A1, AcquireCommit(0, "x"), A2);
  }

  // ---------------------------------------------------------------------------
  // A pointer cleared late
  // ---------------------------------------------------------------------------

  const X := Held("ann", 0).(releasedAt := Some(1))
  const P2 := A2.(calls := map[0 := Releasing("x", "ann", 1)])
  const P3 := A2.(rows := map["x" := X], calls := map[0 := Checking("s", "ann")])
  const P4 := P3.(calls := map[0 := Clearing("s")])
  const P5 := P3.(calls := map[0 := Clearing("s"), 1 := Opening("s", false)])
  const P6 := P3.(calls := map[0 := Clearing("s"), 1 := Asking("bob", false, false, 2, None)])
  const P7 := P4.(rows := map["x" := X, "y" := Held("bob", 2)], pointer := map["s" := "bob"])

  lemma {:induction false} AnnReleases()
    requires Valid(A2)
    ensures Enabled(A2, ReleaseRead(0, "x", "ann", 1)) && Step(A2, ReleaseRead(0, "x", "ann", 1)) == P2 && Valid(P2)
    ensures Enabled(P2, ReleaseWrite(0)) && Step(P2, ReleaseWrite(0)) == P3
  {
    ExecRows(A2.rows, Release("x", Some(1)));
    assert Exec(P2.rows, Release("x", Some(1))) == P3.rows;
    assert P2.calls[0 := Checking("s", "ann")] == P3.calls;
  }

  lemma {:induction false} BobAsks()
    requires Valid(P3)
    ensures Enabled(P3, PointerRead(0)) && Step(P3, PointerRead(0)) == P4 && Valid(P4)
    ensures Enabled(P4, SessionRead(1, "s")) && Step(P4, SessionRead(1, "s")) == P5 && Valid(P5)
    ensures Enabled(P5, AcquireRead(1, "s", "bob", false, 2, None))
    ensures Step(P5, AcquireRead(1, "s", "bob", false, 2, None)) == P6
  {
    assert P3.calls[0 := Clearing("s")] == P4.calls;
    assert P4.calls[1 := Opening("s", false)] == P5.calls;
    assert P5.calls[1 := Asking("bob", false, false, 2, None)] == P6.calls;
  }

  lemma {:induction false} BobCommits()
    requires Valid(P6)
    ensures Enabled(P6, AcquireCommit(1, "y")) && Step(P6, AcquireCommit(1, "y")) == P7
  {
    FreshCommit(P6.rows, "bob", false, 2, "y");
    assert P6.calls - {1} == P7.calls;
    assert P6.rows["y" := Held("bob", 2)] == P7.rows;
    assert P6.pointer["s" := "bob"] == P7.pointer;
    hide Committed;
  }

  lemma {:induction false} ReachP7() returns (run: seq<Action>)
    ensures Reaches(run, P7)
  {
    run := AnnAcquires();
    AnnReleases();
    hide Step, Enabled, Valid;
    run := Go(run, A2, ReleaseRead(0, "x", "ann", 1), P2);
    run := Go(run, P2, ReleaseWrite(0), P3);
    BobAsks();
    run := Go(run, P3, PointerRead(0), P4);
    run := Go(run, P4, SessionRead(1, "s"), P5);
    run := Go(run, P5, AcquireRead(1, "s", "bob", false, 2, None), P6);
    BobCommits();
    run := Go(run, P6, AcquireCommit(1, "y"), P7);
  }

  /** ann's release clears the pointer of bob, who acquired in between: an active lock, and no pointer. */
  lemma {:induction false} LateClearWitness() returns (run: seq<Action>, s: State)
    ensures Reaches(run, s) && !PointerTracks(s)
  {
    run := ReachP7();
    assert P7.rows["y"] == Held("bob", 2);
    assert HasActive(P7.rows, "s");
    PointerTracked();
    PointerStep(P7, PointerClear(0));
    s := Step(P7, PointerClear(0));
    hide Step, Enabled, Valid, PointerTracks;
    run := Go(run, P7, PointerClear(0), s);
  }

  lemma {:induction false} PointerTracked()
    ensures PointerTracks(P7)
  {
  }

  // ---------------------------------------------------------------------------
  // An idle patch that overtakes a refresh
  // ---------------------------------------------------------------------------

  const T := FINALIZE_LOCK_TTL
  const Q3 := A2.(calls := map[1 := Patching("x", "ann", T)])
  const Q4 := A2.(calls := map[1 := Patching("x", "ann", T), 2 := PatchExpiring("x", "ann", T + 1)])
  const Q5 := A2.(rows := map["x" := Held("ann", 0).(lastActivity := T)], calls := map[2 := PatchExpiring("x", "ann", T + 1)])

  lemma {:induction false} PatchesRead()
    requires Valid(A2)
    ensures Enabled(A2, PatchRead(1, "x", "ann", T)) && Step(A2, PatchRead(1, "x", "ann", T)) == Q3 && Valid(Q3)
    ensures Enabled(Q3, PatchRead(2, "x", "ann", T + 1)) && Step(Q3, PatchRead(2, "x", "ann", T + 1)) == Q4
  {
    assert Q3.calls[2 := PatchExpiring("x", "ann", T + 1)] == Q4.calls;
  }

  lemma {:induction false} PatchRefreshes()
    requires Valid(Q4)
    ensures Enabled(Q4, PatchWrite(1)) && Step(Q4, PatchWrite(1)) == Q5
  {
    ExecRows(Q4.rows, Touch("x", T));
    assert Exec(Q4.rows, Touch("x", T)) == Q5.rows;
    assert Q4.calls - {1} == Q5.calls;
  }

  /** A run after which the idle patch releases an active lock one nanosecond after its refresh. */
  lemma {:induction false} RefreshedReleaseWitness() returns (run: seq<Action>, s: State)
    ensures Reaches(run, s) && Enabled(s, PatchWrite(2)) && s.calls[2] == PatchExpiring("x", "ann", T + 1)
    ensures "x" in s.rows && Active(s.rows["x"]) && s.rows["x"].lastActivity == T && !IsLockExpired(T, T + 1)
    ensures "x" in Step(s, PatchWrite(2)).rows && !Active(Step(s, PatchWrite(2)).rows["x"])
  {
    run := AnnAcquires();
    PatchesRead();
    s := Q5;
    run := PatchRun(run);
    ExecRows(Q5.rows, Release("x", Some(T + 1)));
  }

  lemma {:induction false} PatchRun(start: seq<Action>) returns (run: seq<Action>)
    requires Reaches(start, A2)
    ensures Reaches(run, Q5)
  {
    PatchesRead();
    hide Step, Enabled, Valid;
    run := Go(start, A2, PatchRead(1, "x", "ann", T), Q3);
    run := Go(run, Q3, PatchRead(2, "x", "ann", T + 1), Q4);
    PatchRefreshes();
    run := Go(run, Q4, PatchWrite(1), Q5);
  }

  // ---------------------------------------------------------------------------
  // A supersede mark that is overwritten
  // ---------------------------------------------------------------------------

  const BOB := Asking("bob", true, false, 1, Some("x"))
  const CAT := Asking("cat", true, false, 1, Some("x"))
  const XY := Held("ann", 0).(releasedAt := Some(1), supersededBy := Some("y"))
  const R1 := A2.(calls := map[1 := Opening("s", false)])
  const R2 := A2.(calls := map[1 := BOB])
  const R3 := A2.(calls := map[1 := BOB, 2 := Opening("s", false)])
  const R4 := A2.(calls := map[1 := BOB, 2 := CAT])
  const R5 := A2.(rows := map["x" := XY, "y" := Held("bob", 1)], pointer := map["s" := "bob"], calls := map[2 := CAT])
  const R6 := R5.(calls := map[2 := CAT, 3 := Releasing("y", "bob", 2)])
  const R7 := R5.(rows := map["x" := XY, "y" := Held("bob", 1).(releasedAt := Some(2))],
                  calls := map[2 := CAT, 3 := Checking("s", "bob")])

  lemma {:induction false} BobOverrides()
    requires Valid(A2)
    ensures Enabled(A2, SessionRead(1, "s")) && Step(A2, SessionRead(1, "s")) == R1 && Valid(R1)
    ensures Enabled(R1, AcquireRead(1, "s", "bob", true, 1, Some("x")))
    ensures Step(R1, AcquireRead(1, "s", "bob", true, 1, Some("x"))) == R2
  {
    assert R1.calls[1 := BOB] == R2.calls;
  }

  lemma {:induction false} CatOverrides()
    requires Valid(R2)
    ensures Enabled(R2, SessionRead(2, "s")) && Step(R2, SessionRead(2, "s")) == R3 && Valid(R3)
    ensures Enabled(R3, AcquireRead(2, "s", "cat", true, 1, Some("x")))
    ensures Step(R3, AcquireRead(2, "s", "cat", true, 1, Some("x"))) == R4
  {
    assert R2.calls[2 := Opening("s", false)] == R3.calls;
    assert R3.calls[2 := CAT] == R4.calls;
  }

  lemma {:induction false} OverrideRows()
    requires Sound(R4.rows)
    ensures Committed(R4.rows, BOB, "y") == Some(R5.rows)
  {
    var released: Rows := map["x" := Held("ann", 0).(releasedAt := Some(1))];
    ExecRows(R4.rows, Release("x", Some(1)));
    assert Exec(R4.rows, Release("x", Some(1))) == released;
    OverrideInserts(released);
    hide Exec, Accepts;
    assert Vacated(R4.rows, BOB) == Some(released);
  }

  lemma {:induction false} OverrideInserts(released: Rows)
    requires released == map["x" := Held("ann", 0).(releasedAt := Some(1))]
    ensures Accepts(released, Insert("y", Fresh(BOB)))
    ensures Exec(Exec(released, Insert("y", Fresh(BOB))), Supersede("x", Some("y"))) == R5.rows
  {
    assert OneActive(released);
    InsertRefused(released, "y", Held("bob", 1));
    var inserted: Rows := map["x" := Held("ann", 0).(releasedAt := Some(1)), "y" := Held("bob", 1)];
    assert Exec(released, Insert("y", Fresh(BOB))) == inserted;
    OnlyInsertsRefused(inserted, Supersede("x", Some("y")));
    assert Written(inserted, Supersede("x", Some("y"))) == R5.rows;
  }

  lemma {:induction false} OverrideStep()
    requires Sound(R4.rows)
    ensures AcquireCommitStep(R4, 1, "y") == R5
  {
    OverrideRows();
    hide Committed;
    assert R4.calls - {1} == R5.calls;
    assert R4.pointer["s" := "bob"] == R5.pointer;
  }

  lemma {:induction false} OverrideCommits()
    requires Valid(R4)
    ensures Enabled(R4, AcquireCommit(1, "y")) && Step(R4, AcquireCommit(1, "y")) == R5
  {
    OverrideStep();
    hide AcquireCommitStep;
  }

  lemma {:induction false} BobReleases()
    requires Valid(R5)
    ensures Enabled(R5, ReleaseRead(3, "y", "bob", 2)) && Step(R5, ReleaseRead(3, "y", "bob", 2)) == R6
  {
    assert R5.calls[3 := Releasing("y", "bob", 2)] == R6.calls;
  }

  lemma {:induction false} BobReleased()
    requires Valid(R6)
    ensures Enabled(R6, ReleaseWrite(3)) && Step(R6, ReleaseWrite(3)) == R7
  {
    ExecRows(R6.rows, Release("y", Some(2)));
    assert Written(R6.rows, Release("y", Some(2))) == R7.rows;
    hide Exec;
    assert R6.calls[3 := Checking("s", "bob")] == R7.calls;
  }

  lemma {:induction false} ReachR7() returns (run: seq<Action>)
    ensures Reaches(run, R7)
  {
    run := AnnAcquires();
    BobOverrides();
    hide Step, Enabled, Valid;
    run := Go(run, A2, SessionRead(1, "s"), R1);
    run := Go(run, R1, AcquireRead(1, "s", "bob", true, 1, Some("x")), R2);
    CatOverrides();
    run := Go(run, R2, SessionRead(2, "s"), R3);
    run := Go(run, R3, AcquireRead(2, "s", "cat", true, 1, Some("x")), R4);
    OverrideCommits();
    run := Go(run, R4, AcquireCommit(1, "y"), R5);
    BobReleases();
    run := Go(run, R5, ReleaseRead(3, "y", "bob", 2), R6);
    BobReleased();
    run := Go(run, R6, ReleaseWrite(3), R7);
  }

  /** A run after which cat's override replaces the mark that bob's left on ann's lock. */
  lemma {:induction false} RemarkWitness() returns (run: seq<Action>, s: State)
    ensures Reaches(run, s) && "x" in s.rows && s.rows["x"].supersededBy == Some("y")
    ensures Enabled(s, AcquireCommit(2, "z")) && Remarks(s, AcquireCommit(2, "z"), "x")
    ensures "x" in Step(s, AcquireCommit(2, "z")).rows
    ensures Step(s, AcquireCommit(2, "z")).rows["x"].supersededBy == Some("z")
  {
    run := ReachR7();
    s := R7;
    assert !HasActive(R7.rows, "s");
    assert Grounded(R7.rows, CAT);
    CommitsIffTakes(R7.rows, CAT, "z");
    CommitTouchesOnlySeen(R7.rows, CAT, "z");
    hide Committed;
  }

  // ---------------------------------------------------------------------------
  // A session that comes back after it was shipped
  // ---------------------------------------------------------------------------

  const LATE := Asking("bob", false, true, 0, None)
  const V0 := Empty.(calls := map[1 := Opening("s", true)])
  const V1 := Empty.(calls := map[1 := LATE])
  const V2 := Empty.(calls := map[1 := LATE, 0 := Opening("s", true)])
  const V3 := Empty.(calls := map[1 := LATE, 0 := Asking("ann", false, true, 0, None)])
  const V4 := A2.(calls := map[1 := LATE])
  const V5 := A2.(calls := map[1 := LATE, 2 := Shipping("s", Some("ann"))])
  const V6 := A2.(status := map["s" := Ended], calls := map[1 := LATE, 2 := ShipEnded("s", Some("ann"))])
  const V7 := V6.(calls := map[1 := LATE, 2 := ShipReleasing("x", 1, Some("ann"))])
  const V8 := V6.(rows := map["x" := X], calls := map[1 := LATE, 2 := Clearing("s")])

  lemma {:induction false} BothAsk()
    ensures Valid(Empty) && Enabled(Empty, SessionRead(1, "s")) && Step(Empty, SessionRead(1, "s")) == V0 && Valid(V0)
    ensures Enabled(V0, AcquireRead(1, "s", "bob", false, 0, None)) && Step(V0, AcquireRead(1, "s", "bob", false, 0, None)) == V1
    ensures Valid(V1) && Enabled(V1, SessionRead(0, "s")) && Step(V1, SessionRead(0, "s")) == V2 && Valid(V2)
    ensures Enabled(V2, AcquireRead(0, "s", "ann", false, 0, None)) && Step(V2, AcquireRead(0, "s", "ann", false, 0, None)) == V3
  {
    assert V0.calls[1 := LATE] == V1.calls;
    assert V1.calls[0 := Opening("s", true)] == V2.calls;
    assert V2.calls[0 := Asking("ann", false, true, 0, None)] == V3.calls;
  }

  lemma {:induction false} AnnWins()
    requires Valid(V3)
    ensures Enabled(V3, AcquireCommit(0, "x")) && Step(V3, AcquireCommit(0, "x")) == V4
  {
    FreshCommit(map[], "ann", true, 0, "x");
    assert V3.calls - {0} == V4.calls;
    hide Committed;
  }

  lemma {:induction false} AnnShips()
    requires Valid(V4)
    ensures Enabled(V4, ShipRead(2, "s")) && Step(V4, ShipRead(2, "s")) == V5
  {
    assert V4.calls[2 := Shipping("s", Some("ann"))] == V5.calls;
  }

  lemma {:induction false} ShipEnds()
    requires Valid(V5)
    ensures Enabled(V5, ShipEnd(2)) && Step(V5, ShipEnd(2)) == V6
  {
    assert V5.calls[2 := ShipEnded("s", Some("ann"))] == V6.calls;
    assert V5.status["s" := Ended] == V6.status;
  }

  lemma {:induction false} ShipFinds()
    requires Valid(V6)
    ensures Enabled(V6, ShipFind(2, 1, Some("x"))) && Step(V6, ShipFind(2, 1, Some("x"))) == V7
  {
    assert V6.calls[2 := ShipReleasing("x", 1, Some("ann"))] == V7.calls;
  }

  lemma {:induction false} ShipReleases()
    requires Valid(V7)
    ensures Enabled(V7, ShipWrite(2)) && Step(V7, ShipWrite(2)) == V8
  {
    ExecRows(V7.rows, Release("x", Some(1)));
    assert Exec(V7.rows, Release("x", Some(1))) == V8.rows;
    assert V7.calls[2 := Clearing("s")] == V8.calls;
  }

  lemma {:induction false} ReachV8() returns (run: seq<Action>)
    ensures Reaches(run, V8)
  {
    Nothing();
    BothAsk();
    hide Step, Enabled, Valid;
    run := Go([], Empty, SessionRead(1, "s"), V0);
    run := Go(run, V0, AcquireRead(1, "s", "bob", false, 0, None), V1);
    run := Go(run, V1, SessionRead(0, "s"), V2);
    run := Go(run, V2, AcquireRead(0, "s", "ann", false, 0, None), V3);
    AnnWins();
    run := Go(run, V3, AcquireCommit(0, "x"), V4);
    AnnShips();
    run := Go(run, V4, ShipRead(2, "s"), V5);
    ShipEnds();
    run := Go(run, V5, ShipEnd(2), V6);
    ShipFinds();
    run := Go(run, V6, ShipFind(2, 1, Some("x")), V7);
    ShipReleases();
    run := Go(run, V7, ShipWrite(2), V8);
  }

  /** A run after which bob, who loaded the session before it was shipped, makes it finalizing again. */
  lemma {:induction false} ResurrectWitness() returns (run: seq<Action>, s: State)
    ensures Reaches(run, s) && StatusOf(s.status, "s") == Ended
    ensures Enabled(s, AcquireCommit(1, "y")) && StatusOf(Step(s, AcquireCommit(1, "y")).status, "s") == Finalizing
  {
    run := ReachV8();
    s := V8;
    FreshCommit(V8.rows, "bob", true, 0, "y");
    hide Committed;
  }

  const W1 := Empty.(calls := map[1 := Promoting("s")])
  const W2 := Empty.(calls := map[1 := Promoting("s"), 0 := Opening("s", true)])
  const W3 := Empty.(calls := map[1 := Promoting("s"), 0 := Asking("ann", false, true, 0, None)])
  const W4 := A2.(calls := map[1 := Promoting("s")])
  const W5 := A2.(calls := map[1 := Promoting("s"), 2 := Shipping("s", Some("ann"))])
  const W6 := A2.(status := map["s" := Ended], calls := map[1 := Promoting("s"), 2 := ShipEnded("s", Some("ann"))])

  lemma {:induction false} FinalizeLoads()
    ensures Valid(Empty) && Enabled(Empty, FinalizeRead(1, "s")) && Step(Empty, FinalizeRead(1, "s")) == W1 && Valid(W1)
    ensures Enabled(W1, SessionRead(0, "s")) && Step(W1, SessionRead(0, "s")) == W2 && Valid(W2)
    ensures Enabled(W2, AcquireRead(0, "s", "ann", false, 0, None)) && Step(W2, AcquireRead(0, "s", "ann", false, 0, None)) == W3
  {
    assert W1.calls[0 := Opening("s", true)] == W2.calls;
    assert W2.calls[0 := Asking("ann", false, true, 0, None)] == W3.calls;
  }

  lemma {:induction false} AnnWinsAgain()
    requires Valid(W3)
    ensures Enabled(W3, AcquireCommit(0, "x")) && Step(W3, AcquireCommit(0, "x")) == W4
  {
    FreshCommit(map[], "ann", true, 0, "x");
    assert W3.calls - {0} == W4.calls;
    hide Committed;
  }

  lemma {:induction false} AnnShipsAgain()
    requires Valid(W4)
    ensures Enabled(W4, ShipRead(2, "s")) && Step(W4, ShipRead(2, "s")) == W5
  {
    assert W4.calls[2 := Shipping("s", Some("ann"))] == W5.calls;
  }

  lemma {:induction false} ShipEndsAgain()
    requires Valid(W5)
    ensures Enabled(W5, ShipEnd(2)) && Step(W5, ShipEnd(2)) == W6
  {
    assert W5.calls[2 := ShipEnded("s", Some("ann"))] == W6.calls;
    assert W5.status["s" := Ended] == W6.status;
  }

  lemma {:induction false} ReachW6() returns (run: seq<Action>)
    ensures Reaches(run, W6)
  {
    Nothing();
    FinalizeLoads();
    hide Step, Enabled, Valid;
    run := Go([], Empty, FinalizeRead(1, "s"), W1);
    run := Go(run, W1, SessionRead(0, "s"), W2);
    run := Go(run, W2, AcquireRead(0, "s", "ann", false, 0, None), W3);
    AnnWinsAgain();
    run := Go(run, W3, AcquireCommit(0, "x"), W4);
    AnnShipsAgain();
    run := Go(run, W4, ShipRead(2, "s"), W5);
    ShipEndsAgain();
    run := Go(run, W5, ShipEnd(2), W6);
  }

  /** A run after which a finalize that loaded the session before it was shipped makes it finalizing again. */
  lemma {:induction false} LateFinalizeWitness() returns (run: seq<Action>, s: State)
    ensures Reaches(run, s) && StatusOf(s.status, "s") == Ended
    ensures Enabled(s, FinalizeWrite(1)) && StatusOf(Step(s, FinalizeWrite(1)).status, "s") == Finalizing
  {
    run := ReachW6();
    s := W6;
  }

  const U1 := Empty.(calls := map[1 := Promoting("s"), 2 := Abandoning("s")])
  const U2 := Empty.(status := map["s" := Ended], calls := map[1 := Promoting("s")])

  lemma {:induction false} Abandons()
    requires Valid(W1)
    ensures Enabled(W1, AbandonRead(2, "s")) && Step(W1, AbandonRead(2, "s")) == U1 && Valid(U1)
    ensures Enabled(U1, AbandonWrite(2)) && Step(U1, AbandonWrite(2)) == U2
  {
    assert W1.calls[2 := Abandoning("s")] == U1.calls;
    assert U1.calls - {2} == U2.calls;
  }

  /** The same after the session was abandoned. */
  lemma {:induction false} AbandonedThenFinalizedWitness() returns (run: seq<Action>, s: State)
    ensures Reaches(run, s) && StatusOf(s.status, "s") == Ended
    ensures Enabled(s, FinalizeWrite(1)) && StatusOf(Step(s, FinalizeWrite(1)).status, "s") == Finalizing
  {
    run := ReachU2();
    s := U2;
  }

  lemma {:induction false} ReachU2() returns (run: seq<Action>)
    ensures Reaches(run, U2)
  {
    Nothing();
    FinalizeLoads();
    Abandons();
    hide Step, Enabled, Valid;
    run := Go([], Empty, FinalizeRead(1, "s"), W1);
    run := Go(run, W1, AbandonRead(2, "s"), U1);
    run := Go(run, U1, AbandonWrite(2), U2);
  }
}
