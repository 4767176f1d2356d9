/**
 The one-step results lifted to every run from the empty state, and runs that show
 each premise is needed.
 */
module WsRuns {
  import opened Wrappers
  import opened WsClient
  import opened WsSession
  import opened WsSafety
  import opened WsOneSocket

  // ---------------------------------------------------------------------------
  // Every run
  // ---------------------------------------------------------------------------

  lemma {:induction false} TidyFrom(s: Session, run: seq<Action>)
    requires Valid(s) && Tidy(s) && Feasible(s, run)
    ensures Tidy(After(s, run))
    decreases |run|
  {
    if run != [] {
      TidyStep(s, run[0]);
      TidyFrom(Step(s, run[0]), run[1..]);
    }
  }

  /**
   No premise: after any run, the status shown is the record's, and a record
   without handlers has a teardown timer pending.
   */
  lemma {:induction false} StatusAndTeardownAlways(run: seq<Action>)
    requires Feasible(INIT, run)
    ensures var c := After(INIT, run).client;
            && c.status == (if c.cur.Some? then Some(c.records[c.cur.value].status) else None)
            && (c.cur.Some? && !Listening(c) ==>
                  exists t :: t in c.timers && c.timers[t] == TeardownTimer(c.cur.value))
  {
    TidyFrom(INIT, run);
    var c := After(INIT, run).client;
    if c.cur.Some? && !Listening(c) {
      assert HoldsOwnTimers(c.records[c.cur.value], c.cur.value, c.timers, c.nextId);
    }
  }

  /** No premise: no step constructs a socket for a session nobody listens to. */
  lemma {:induction false} SocketsOnlyForListeners(s: Session, a: Action)
    requires Valid(s) && Enabled(s, a)
    ensures Step(s, a).sockets.Keys != s.sockets.Keys ==> Listening(s.client)
  {
    if !Listening(s.client) {
      assert Step(s, a).sockets.Keys == s.sockets.Keys;
    }
  }

  ghost predicate NoStaleClose(s: Session, run: seq<Action>)
    requires Valid(s) && Feasible(s, run)
    decreases |run|
  {
    run == [] || (!StaleClose(s, run[0]) && NoStaleClose(Step(s, run[0]), run[1..]))
  }

  ghost predicate NoStaleReopenFailure(s: Session, run: seq<Action>)
    requires Valid(s) && Feasible(s, run)
    decreases |run|
  {
    run == [] || (!StaleReopenFailure(s, run[0]) && NoStaleReopenFailure(Step(s, run[0]), run[1..]))
  }

  ghost predicate HarmlessRun(s: Session, run: seq<Action>)
    requires Valid(s) && Feasible(s, run)
  {
    NoStaleClose(s, run) && NoStaleReopenFailure(s, run)
  }

  ghost predicate SoleThroughout(s: Session, run: seq<Action>)
    requires Valid(s) && Feasible(s, run)
    decreases |run|
  {
    Sole(s) && (run == [] || SoleThroughout(Step(s, run[0]), run[1..]))
  }

  lemma {:induction false} SoleFrom(s: Session, run: seq<Action>)
    requires Valid(s) && Tidy(s) && Sole(s) && Feasible(s, run)
    ensures SoleThroughout(s, run) <==> HarmlessRun(s, run)
    decreases |run|
  {
    if run != [] {
      var s' := Step(s, run[0]);
      TidyStep(s, run[0]);
      SoleStep(s, run[0]);
      if Sole(s') {
        SoleFrom(s', run[1..]);
      } else {
        assert !SoleThroughout(s', run[1..]);
      }
    }
  }

  ghost predicate OneLiveThroughout(s: Session, run: seq<Action>)
    requires Valid(s) && Feasible(s, run)
    decreases |run|
  {
    OneLiveSocket(s) && (run == [] || OneLiveThroughout(Step(s, run[0]), run[1..]))
  }

  ghost predicate NeverOrphans(s: Session, run: seq<Action>)
    requires Valid(s) && Feasible(s, run)
    decreases |run|
  {
    run == [] || (!Orphans(s, run[0]) && NeverOrphans(Step(s, run[0]), run[1..]))
  }

  lemma {:induction false} OneLiveFrom(s: Session, run: seq<Action>)
    requires Valid(s) && Tidy(s) && OneLiveSocket(s) && Feasible(s, run)
    ensures OneLiveThroughout(s, run) <==> NeverOrphans(s, run)
    decreases |run|
  {
    hide Step, Enabled, Tidy, OneLiveSocket, Orphans;
    if run != [] {
      var s' := Step(s, run[0]);
      TidyStep(s, run[0]);
      OneLiveStep(s, run[0]);
      if OneLiveSocket(s') {
        OneLiveFrom(s', run[1..]);
      } else {
        assert !OneLiveThroughout(s', run[1..]);
      }
    }
  }

  /** Over every run: the only live socket is the record's throughout, if and only if no step orphans a socket. */
  lemma {:induction false} OneSocketPerSession(run: seq<Action>)
    requires Feasible(INIT, run)
    ensures OneLiveThroughout(INIT, run) <==> NeverOrphans(INIT, run)
  {
    OneLiveFrom(INIT, run);
  }

  ghost predicate OneReopenThroughout(s: Session, run: seq<Action>)
    requires Valid(s) && Feasible(s, run)
    decreases |run|
  {
    OneReopenEach(s.client) && (run == [] || OneReopenThroughout(Step(s, run[0]), run[1..]))
  }

  ghost predicate NeverDoubles(s: Session, run: seq<Action>)
    requires Valid(s) && Feasible(s, run)
    decreases |run|
  {
    run == [] || (!DoublesReopen(s, run[0]) && NeverDoubles(Step(s, run[0]), run[1..]))
  }

  /** Over every run: each record has at most one reopen in flight throughout, if and only if no step doubles one. */
  lemma {:induction false} OneReopenPerRecord(s: Session, run: seq<Action>)
    requires Valid(s) && OneReopenEach(s.client) && Feasible(s, run)
    ensures OneReopenThroughout(s, run) <==> NeverDoubles(s, run)
    decreases |run|
  {
    hide Step, Enabled, OneReopenEach, DoublesReopen;
    if run != [] {
      var s' := Step(s, run[0]);
      OneReopenStep(s, run[0]);
      if OneReopenEach(s'.client) {
        OneReopenPerRecord(s', run[1..]);
      } else {
        assert !OneReopenThroughout(s', run[1..]);
      }
    }
  }

  /** Without stale callbacks a run orphans no socket and doubles no reopen. */
  lemma {:induction false} SoleOrphansNothing(s: Session, run: seq<Action>)
    requires Valid(s) && Tidy(s) && Sole(s) && Feasible(s, run) && HarmlessRun(s, run)
    ensures NeverOrphans(s, run) && NeverDoubles(s, run)
    decreases |run|
  {
    hide Step, Enabled, Tidy, OneLiveSocket, CurrentIsLive, OneLoop, OneReopenEach, Orphans, DoublesReopen;
    if run != [] {
      TidyStep(s, run[0]);
      SoleStep(s, run[0]);
      OneLiveStep(s, run[0]);
      OneReopenStep(s, run[0]);
      SoleOrphansNothing(Step(s, run[0]), run[1..]);
    }
  }

  /**
   One live socket and one reconnect loop in every state of a run, if and only if
   no stale callback occurs in it.
   */
  lemma {:induction false} OneSocketAndLoop(run: seq<Action>)
    requires Feasible(INIT, run)
    ensures SoleThroughout(INIT, run) <==> HarmlessRun(INIT, run)
  {
    SoleFrom(INIT, run);
  }

  ghost predicate NeverAbandoned(s: Session, run: seq<Action>)
    requires Valid(s) && Feasible(s, run)
    decreases |run|
  {
    run == [] || (!AbandonedReopen(s, run[0]) && NeverAbandoned(Step(s, run[0]), run[1..]))
  }

  ghost predicate OwnedThroughout(s: Session, run: seq<Action>)
    requires Valid(s) && Feasible(s, run)
    decreases |run|
  {
    LoopOwnsRecord(s.client) && (run == [] || OwnedThroughout(Step(s, run[0]), run[1..]))
  }

  lemma {:induction false} OwnedFrom(s: Session, run: seq<Action>)
    requires Valid(s) && Tidy(s) && Sole(s) && LoopOwnsRecord(s.client)
    requires Feasible(s, run) && HarmlessRun(s, run)
    ensures OwnedThroughout(s, run) <==> NeverAbandoned(s, run)
    decreases |run|
  {
    if run != [] {
      var s' := Step(s, run[0]);
      TidyStep(s, run[0]);
      SoleStep(s, run[0]);
      OwnedStep(s, run[0]);
      if LoopOwnsRecord(s'.client) {
        OwnedFrom(s', run[1..]);
      } else {
        assert !OwnedThroughout(s', run[1..]);
      }
    }
  }

  /**
   In a run without stale callbacks, every record is connected or reconnecting in
   every state if and only if no reopen's ticket arrives while its record lingers
   without handlers.
   */
  lemma {:induction false} LoopOwnsRecordAlways(run: seq<Action>)
    requires Feasible(INIT, run) && HarmlessRun(INIT, run)
    ensures OwnedThroughout(INIT, run) <==> NeverAbandoned(INIT, run)
  {
    OwnedFrom(INIT, run);
  }

  // ---------------------------------------------------------------------------
  // A wedged session
  // ---------------------------------------------------------------------------

  /** The session's record r has no socket, and no reconnect timer and no reopen of its own. */
  ghost predicate Stuck(c: Client, r: nat)
    requires WellFormed(c)
  {
    && c.cur == Some(r) && c.records[r].ws.None?
    && (forall t | t in c.timers :: c.timers[t] != ReconnectTimer(r))
    && !ReopenInFlight(c, r)
  }

  ghost predicate NoLiveSocket(s: Session) {
    forall k | k in s.sockets :: !Alive(s.sockets[k])
  }

  /** Handlers wait on a stuck record, and no socket is left to deliver anything. */
  ghost predicate Wedged(s: Session)
    requires Valid(s)
  {
    Listening(s.client) && s.client.cur.Some? && Stuck(s.client, s.client.cur.value) && NoLiveSocket(s)
  }

  /**
   What gets a stuck record moving or removes it: close(), the teardown once nobody
   listens, and callbacks that belong to other records: the close event of any socket,
   another record's reconnect timer, another record's failing reopen.
   */
  ghost predicate Frees(s: Session, a: Action)
    requires Valid(s) && Enabled(s, a)
  {
    || a.DoClose?
    || (a.TeardownTick? && !Listening(s.client))
    || a.SocketCloses?
    || a.ReconnectTick?
    || (a.ReopenTicket? && !a.granted)
  }

  lemma {:induction false} SubscribersStuck(s: Session, a: Action, r: nat)
    requires Valid(s) && Enabled(s, a) && Stuck(s.client, r) && (a.DoSubscribe? || a.DoUnsubscribe?)
    ensures Stuck(Step(s, a).client, r)
  {
  }

  lemma {:induction false} TicketStuck(s: Session, a: Action, r: nat)
    requires Valid(s) && Enabled(s, a) && Stuck(s.client, r) && (a.OpenTicket? || a.ReopenTicket?)
    ensures Stuck(Step(s, a).client, r) <==> !Frees(s, a)
    ensures !Frees(s, a) ==> Step(s, a).sockets == s.sockets
  {
    hide SubscribeStep, UnsubscribeStep, CloseStep, TeardownTickStep, ReconnectTickStep, SocketOpensStep, FrameStep,
         SocketClosesStep;
    if a.ReopenTicket? {
      assert s.client.flights[a.flight] != Reopening(r);
    }
  }

  lemma {:induction false} TimerStuck(s: Session, a: Action, r: nat)
    requires Valid(s) && Enabled(s, a) && Stuck(s.client, r) && (a.TeardownTick? || a.ReconnectTick?)
    ensures Stuck(Step(s, a).client, r) <==> !Frees(s, a)
  {
    hide SubscribeStep, UnsubscribeStep, CloseStep, TicketStep, SocketOpensStep, FrameStep, SocketClosesStep;
    var c, c' := s.client, Step(s, a).client;
    if a.ReconnectTick? && c'.cur.Some? {
      assert c'.flights[c.nextId] == Reopening(r);
    }
  }

  lemma {:induction false} TransportStuck(s: Session, a: Action, r: nat)
    requires Valid(s) && Enabled(s, a) && Stuck(s.client, r)
    requires a.SocketOpens? || a.GatewayAnswers? || a.ReplayEnds? || a.Frame? || a.Overtake? || a.LateFrame?
             || a.SocketCloses? || a.Emit? || a.DoClose?
    ensures Stuck(Step(s, a).client, r) <==> !Frees(s, a)
  {
    hide SubscribeStep, UnsubscribeStep, TicketStep, TeardownTickStep, ReconnectTickStep;
    var c, c' := s.client, Step(s, a).client;
    if a.SocketCloses? && c'.cur.Some? {
      assert c'.timers[c.nextId] == ReconnectTimer(r);
    }
  }

  /** A stuck record stays stuck across a step if and only if the step is not one that frees it. */
  lemma {:induction false} StuckStep(s: Session, a: Action, r: nat)
    requires Valid(s) && Enabled(s, a) && Stuck(s.client, r)
    ensures Stuck(Step(s, a).client, r) <==> !Frees(s, a)
  {
    hide Step, Stuck;
    if a.DoSubscribe? || a.DoUnsubscribe? {
      SubscribersStuck(s, a, r);
    } else if a.OpenTicket? || a.ReopenTicket? {
      TicketStuck(s, a, r);
    } else if a.TeardownTick? || a.ReconnectTick? {
      TimerStuck(s, a, r);
    } else {
      TransportStuck(s, a, r);
    }
  }

  /** While it is stuck and no socket is alive, nothing is delivered and no socket comes to life. */
  lemma {:induction false} StuckSilent(s: Session, a: Action, r: nat)
    requires Valid(s) && Enabled(s, a) && Stuck(s.client, r) && NoLiveSocket(s) && !Frees(s, a)
    ensures NoLiveSocket(Step(s, a)) && Step(s, a).delivered == s.delivered
  {
    if a.OpenTicket? || a.ReopenTicket? {
      TicketStuck(s, a, r);
      TicketDelivers(s, a, r);
    }
    hide TicketStep;
  }

  lemma {:induction false} TicketDelivers(s: Session, a: Action, r: nat)
    requires Valid(s) && Enabled(s, a) && Stuck(s.client, r) && (a.OpenTicket? || a.ReopenTicket?) && !Frees(s, a)
    ensures Step(s, a).delivered == s.delivered
  {
    assert Step(s, a).client.records == s.client.records;
  }

  ghost predicate StuckThroughout(s: Session, run: seq<Action>, r: nat)
    requires Valid(s) && Feasible(s, run)
    decreases |run|
  {
    Stuck(s.client, r) && (run == [] || StuckThroughout(Step(s, run[0]), run[1..], r))
  }

  ghost predicate NeverFreed(s: Session, run: seq<Action>)
    requires Valid(s) && Feasible(s, run)
    decreases |run|
  {
    run == [] || (!Frees(s, run[0]) && NeverFreed(Step(s, run[0]), run[1..]))
  }

  /**
   Over every run: a record without a socket, a reconnect timer and a reopen of its own
   stays that way, if and only if none of the freeing callbacks happens; and with no
   live socket left it then receives nothing.
   */
  lemma {:induction false} WedgedForGood(s: Session, run: seq<Action>, r: nat)
    requires Valid(s) && Feasible(s, run) && Stuck(s.client, r)
    ensures StuckThroughout(s, run, r) <==> NeverFreed(s, run)
    ensures NoLiveSocket(s) && NeverFreed(s, run) ==> After(s, run).delivered == s.delivered
    decreases |run|
  {
    hide Step, Enabled, Stuck, Frees, NoLiveSocket;
    if run != [] {
      var s' := Step(s, run[0]);
      StuckStep(s, run[0], r);
      if NoLiveSocket(s) && !Frees(s, run[0]) {
        StuckSilent(s, run[0], r);
      }
      if Stuck(s'.client, r) {
        WedgedForGood(s', run[1..], r);
      } else {
        assert !StuckThroughout(s', run[1..], r);
      }
    }
  }

  /** Nothing is pending: no timer, no ticket, no socket that has yet to close. */
  ghost predicate NothingPending(s: Session) {
    s.client.timers == map[] && s.client.flights == map[] && forall k | k in s.sockets :: s.sockets[k].phase.Closed?
  }

  ghost predicate NoLeaving(run: seq<Action>) {
    forall i | 0 <= i < |run| :: !run[i].DoUnsubscribe? && !run[i].DoClose?
  }

  /** With nothing pending, only the callers can free a stuck record, by leaving. */
  lemma {:induction false} OnlyLeavingFrees(s: Session, run: seq<Action>, r: nat)
    requires Valid(s) && Feasible(s, run) && Stuck(s.client, r) && NothingPending(s) && NoLeaving(run)
    ensures NeverFreed(s, run)
    decreases |run|
  {
    if run != [] {
      var a := run[0];
      assert !a.DoUnsubscribe? && !a.DoClose?;
      assert a.DoSubscribe? || a.Emit?;
      StuckStep(s, a, r);
      OnlyLeavingFrees(Step(s, a), run[1..], r);
    }
  }

  // ---------------------------------------------------------------------------
  // Witness runs
  // ---------------------------------------------------------------------------

  lemma {:induction false} Extend(s: Session, run: seq<Action>, a: Action)
    requires Valid(s) && Feasible(s, run) && Enabled(After(s, run), a)
    ensures Feasible(s, run + [a]) && After(s, run + [a]) == Step(After(s, run), a)
    ensures NoStaleClose(s, run + [a]) <==> NoStaleClose(s, run) && !StaleClose(After(s, run), a)
    ensures NoStaleReopenFailure(s, run + [a]) <==>
            NoStaleReopenFailure(s, run) && !StaleReopenFailure(After(s, run), a)
    decreases |run|
  {
    hide Step, Enabled, StaleClose, StaleReopenFailure;
    if run == [] {
      assert (run + [a])[1..] == [];
    } else {
      Extend(Step(s, run[0]), run[1..], a);
      assert (run + [a])[1..] == run[1..] + [a];
      assert (run + [a])[0] == run[0];
    }
  }
}
