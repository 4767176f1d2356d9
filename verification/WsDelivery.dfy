/**
 What a record's listener has received, over every run and every fan-out: replays that
 fall short, events fanned out late, out of order or not at all, stale callbacks.
 */
module WsDelivery {
  import opened Wrappers
  import opened WsClient
  import opened WsSession
  import opened WsSafety
  import opened WsOneSocket
  import opened WsRuns
  import opened WsResume

  // ---------------------------------------------------------------------------
  // Every run
  // ---------------------------------------------------------------------------

  /** The seq a step delivers, if it is a frame. */
  function Delivers(s: Session, a: Action): Option<nat>
    requires Valid(s) && Enabled(s, a)
  {
    if a.Frame? then Some(NextFrame(s.sockets[a.socket].phase).0)
    else if a.LateFrame? then Some(a.seqNo)
    else None
  }

  /** A frame reaches record r outside of what it has received and its two ends. */
  ghost predicate Jumps(s: Session, a: Action, r: nat)
    requires Valid(s) && Enabled(s, a) && r in s.client.records
  {
    Delivers(s, a).Some? && s.client.cur == Some(r)
    && !Adjoins(s.delivered[r], s.client.records[r].lastSeenSeq, Delivers(s, a).value)
  }

  ghost predicate InOnePiece(s: Session, r: nat)
    requires Valid(s)
  {
    r in s.client.records && Contiguous(s.delivered[r], s.client.records[r].lastSeenSeq)
  }

  /** Connections carry seqs from 1 up to the log's length. */
  ghost predicate Bounded(k: Socket, log: nat) {
    match k.phase
    case Replaying(next, last, at, late) => 1 <= next && last <= log && at <= log && forall q | q in late :: 1 <= q <= at
    case Streaming(next, late) => 1 <= next && forall q | q in late :: 1 <= q <= log
    case _ => true
  }

  ghost predicate AllBounded(s: Session) {
    forall k | k in s.sockets :: Bounded(s.sockets[k], s.log)
  }

  lemma {:induction false} PhaseBounded(s: Session, a: Action)
    requires Valid(s) && AllBounded(s) && Enabled(s, a)
    requires a.SocketOpens? || a.GatewayAnswers? || a.ReplayEnds? || a.Frame? || a.Overtake? || a.LateFrame? || a.Emit?
    ensures AllBounded(Step(s, a))
  {
    hide SubscribeStep, UnsubscribeStep, CloseStep, TicketStep, TeardownTickStep, ReconnectTickStep, SocketClosesStep;
    if !a.Emit? {
      assert Bounded(s.sockets[a.socket], s.log);
    }
  }

  lemma {:induction false} BoundedStep(s: Session, a: Action)
    requires Valid(s) && AllBounded(s) && Enabled(s, a)
    ensures AllBounded(Step(s, a))
  {
    if a.SocketOpens? || a.GatewayAnswers? || a.ReplayEnds? || a.Frame? || a.Overtake? || a.LateFrame? || a.Emit? {
      PhaseBounded(s, a);
    } else {
      hide Subscribe, Unsubscribe, Teardown, TeardownFires, ReconnectFires, OpenResume, ReopenResume, OnClose;
    }
  }

  /** A frame adds its seq to the current record's receipts, and nothing else adds or moves anything. */
  lemma {:induction false} FrameReceipts(s: Session, a: Action, r: nat)
    requires Valid(s) && Enabled(s, a) && r in s.client.records && Delivers(s, a).Some?
    ensures r in Step(s, a).client.records
    ensures var q, cursor := Delivers(s, a).value, s.client.records[r].lastSeenSeq;
            if s.client.cur == Some(r)
            then && Step(s, a).delivered[r] == s.delivered[r] + [q]
                 && Step(s, a).client.records[r].lastSeenSeq == (if q > cursor then q else cursor)
            else Step(s, a).delivered[r] == s.delivered[r] && Step(s, a).client.records[r].lastSeenSeq == cursor
  {
    hide SubscribeStep, UnsubscribeStep, CloseStep, TicketStep, TeardownTickStep, ReconnectTickStep, SocketOpensStep,
         SocketClosesStep;
  }

  lemma {:induction false} OtherReceipts(s: Session, a: Action, r: nat)
    requires Valid(s) && Enabled(s, a) && r in s.client.records && Delivers(s, a).None?
    ensures r in Step(s, a).client.records && Step(s, a).delivered[r] == s.delivered[r]
    ensures Step(s, a).client.records[r].lastSeenSeq == s.client.records[r].lastSeenSeq
  {
    if a.OpenTicket? || a.ReopenTicket? {
      TicketReceipts(s, a.flight, a.granted, r);
      assert Step(s, a) == TicketStep(s, a.flight, a.granted);
    } else if a.DoSubscribe? || a.DoUnsubscribe? {
      SubscribeQuiet(s, a);
      hide Step;
    } else if a.DoClose? || a.TeardownTick? || a.ReconnectTick? || a.SocketCloses? {
      TeardownQuiet(s, a);
      hide Step;
    } else {
      hide SubscribeStep, UnsubscribeStep, CloseStep, TicketStep, TeardownTickStep, ReconnectTickStep, SocketClosesStep,
           FrameStep, LateFrameStep;
    }
  }

  lemma {:induction false} TicketReceipts(s: Session, f: nat, granted: bool, r: nat)
    requires Valid(s) && f in s.client.flights && r in s.client.records
    ensures var s' := TicketStep(s, f, granted);
            && r in s'.client.records && s'.delivered[r] == s.delivered[r]
            && s'.client.records[r].lastSeenSeq == s.client.records[r].lastSeenSeq
  {
  }

  /** What record r has received stays in one piece across a step if and only if no frame jumps. */
  lemma {:induction false} PieceStep(s: Session, a: Action, r: nat)
    requires Valid(s) && AllBounded(s) && Enabled(s, a) && InOnePiece(s, r)
    ensures InOnePiece(Step(s, a), r) <==> !Jumps(s, a, r)
  {
    if Delivers(s, a).Some? {
      assert Bounded(s.sockets[a.socket], s.log);
      FrameReceipts(s, a, r);
      hide Step;
      ContiguousGrows(s.delivered[r], s.client.records[r].lastSeenSeq, Delivers(s, a).value);
    } else {
      OtherReceipts(s, a, r);
      hide Step;
    }
  }

  ghost predicate InOnePieceThroughout(s: Session, run: seq<Action>, r: nat)
    requires Valid(s) && Feasible(s, run)
    decreases |run|
  {
    InOnePiece(s, r) && (run == [] || InOnePieceThroughout(Step(s, run[0]), run[1..], r))
  }

  ghost predicate NeverJumps(s: Session, run: seq<Action>, r: nat)
    requires Valid(s) && Feasible(s, run) && r in s.client.records
    decreases |run|
  {
    run == []
    || (!Jumps(s, run[0], r) && r in Step(s, run[0]).client.records && NeverJumps(Step(s, run[0]), run[1..], r))
  }

  /**
   With no premise on callbacks or fan-out: from any reachable state, what a record's
   listener has received stays one interval ending at its cursor throughout a run, if and
   only if no frame reaches it beyond the event before its first or after its last.
   */
  lemma {:induction false} OnePieceEveryRun(s: Session, run: seq<Action>, r: nat)
    requires Valid(s) && AllBounded(s) && Feasible(s, run) && InOnePiece(s, r)
    ensures InOnePieceThroughout(s, run, r) <==> NeverJumps(s, run, r)
    decreases |run|
  {
    hide Step, Enabled, AllBounded, Jumps, InOnePiece;
    assert r in s.client.records by { PieceHasRecord(s, r); }
    if run != [] {
      var s' := Step(s, run[0]);
      PieceStep(s, run[0], r);
      BoundedStep(s, run[0]);
      if InOnePiece(s', r) {
        PieceHasRecord(s', r);
        OnePieceEveryRun(s', run[1..], r);
      } else {
        assert !InOnePieceThroughout(s', run[1..], r);
      }
    }
  }

  lemma {:induction false} PieceHasRecord(s: Session, r: nat)
    requires Valid(s) && InOnePiece(s, r)
    ensures r in s.client.records
  {
  }

  lemma {:induction false} BoundedAlways(run: seq<Action>)
    requires Feasible(INIT, run)
    ensures AllBounded(After(INIT, run))
  {
    BoundedFrom(INIT, run);
  }

  lemma {:induction false} BoundedFrom(s: Session, run: seq<Action>)
    requires Valid(s) && AllBounded(s) && Feasible(s, run)
    ensures AllBounded(After(s, run))
    decreases |run|
  {
    hide Step, Enabled, AllBounded;
    if run != [] {
      BoundedStep(s, run[0]);
      BoundedFrom(Step(s, run[0]), run[1..]);
    }
  }

  // ---------------------------------------------------------------------------
  // Which connections can jump
  // ---------------------------------------------------------------------------

  /** What every listener has received is contiguous up to its record's cursor. */
  ghost predicate Received(s: Session)
    requires Valid(s)
  {
    forall r | r in s.client.records :: InOnePiece(s, r) && s.client.records[r].lastSeenSeq <= s.log
  }

  /** `suspect` are the connections that the live feed did not take over in order; only they can be out of position. */
  ghost predicate Tracked(s: Session, suspect: set<nat>)
    requires Valid(s)
  {
    && suspect <= s.sockets.Keys && Received(s) && AllBounded(s)
    && ((forall k | k in suspect :: !Alive(s.sockets[k])) ==> GapFree(s))
  }

  ghost function SuspectAfter(s: Session, a: Action, suspect: set<nat>): set<nat>
    requires Valid(s) && Enabled(s, a)
  {
    if Bridged(s, a) then suspect
    else
      assert a.GatewayAnswers? || a.Overtake?;
      suspect + {a.socket}
  }

  /** A suspect connection delivers a frame that jumps. */
  ghost predicate SuspectJumps(s: Session, a: Action, suspect: set<nat>)
    requires Valid(s) && Enabled(s, a)
  {
    Delivers(s, a).Some? && a.socket in suspect && s.client.cur.Some? && Jumps(s, a, s.client.cur.value)
  }

  /** Every frame jumps over no listener but the current one's. */
  lemma {:induction false} ReceivedStep(s: Session, a: Action)
    requires Valid(s) && AllBounded(s) && Received(s) && Enabled(s, a)
    ensures Received(Step(s, a)) <==> !(s.client.cur.Some? && Jumps(s, a, s.client.cur.value))
  {
    var s' := Step(s, a);
    forall r | r in s.client.records
      ensures InOnePiece(s', r) <==> !Jumps(s, a, r)
      ensures r in s'.client.records && s'.client.records[r].lastSeenSeq <= s'.log
    {
      assert InOnePiece(s, r);
      PieceStep(s, a, r);
      CursorBounded(s, a, r);
    }
    NewRecords(s, a);
    hide Step, InOnePiece, Bounded;
    assert forall r | r in s.client.records :: s.client.cur != Some(r) ==> !Jumps(s, a, r);
  }

  lemma {:induction false} CursorBounded(s: Session, a: Action, r: nat)
    requires Valid(s) && AllBounded(s) && Enabled(s, a) && r in s.client.records && s.client.records[r].lastSeenSeq <= s.log
    ensures r in Step(s, a).client.records && Step(s, a).client.records[r].lastSeenSeq <= Step(s, a).log
  {
    LogGrows(s, a);
    if Delivers(s, a).Some? {
      assert Bounded(s.sockets[a.socket], s.log);
      FrameReceipts(s, a, r);
    } else {
      OtherReceipts(s, a, r);
    }
    hide Step;
  }

  lemma {:induction false} LogGrows(s: Session, a: Action)
    requires Valid(s) && Enabled(s, a)
    ensures s.log <= Step(s, a).log
  {
    hide Subscribe, Unsubscribe, Teardown, TeardownFires, ReconnectFires, OpenResume, ReopenResume, OnClose, OnOpen, OnMessage;
  }

  /** A record that a step creates has received nothing. */
  lemma {:induction false} NewRecords(s: Session, a: Action)
    requires Valid(s) && Enabled(s, a)
    ensures forall r | r in Step(s, a).client.records && r !in s.client.records ::
              InOnePiece(Step(s, a), r) && Step(s, a).client.records[r].lastSeenSeq == 0
  {
  }

  lemma {:induction false} SameSockets(s: Session, a: Action)
    requires Valid(s) && Enabled(s, a)
    ensures s.sockets.Keys <= Step(s, a).sockets.Keys
  {
  }

  /** No step brings a dead connection back. */
  lemma {:induction false} DeadStays(s: Session, a: Action, k: nat)
    requires Valid(s) && Enabled(s, a) && k in s.sockets && !Alive(s.sockets[k])
    ensures k in Step(s, a).sockets && !Alive(Step(s, a).sockets[k])
  {
  }

  /** With the only live socket dead, none is alive. */
  lemma {:induction false} KillsAll(s: Session, a: Action, k: nat)
    requires Valid(s) && OneLiveSocket(s) && Enabled(s, a) && k in s.sockets && Alive(s.sockets[k])
    requires k in Step(s, a).sockets && !Alive(Step(s, a).sockets[k])
    ensures forall j | j in Step(s, a).sockets :: !Alive(Step(s, a).sockets[j])
  {
    assert forall j | j in s.sockets && Alive(s.sockets[j]) :: j == k;
    if a.DoClose? || a.TeardownTick? || a.ReconnectTick? || a.SocketCloses? {
      TeardownQuiet(s, a);
      hide Step;
    } else {
      KeepsAlive(s, a, k);
    }
  }

  lemma {:induction false} KeepsAlive(s: Session, a: Action, k: nat)
    requires Valid(s) && Enabled(s, a) && k in s.sockets && Alive(s.sockets[k])
    requires !a.DoClose? && !a.TeardownTick? && !a.ReconnectTick? && !a.SocketCloses?
    ensures k in Step(s, a).sockets && Alive(Step(s, a).sockets[k])
  {
    hide CloseStep, TeardownTickStep, ReconnectTickStep, SocketClosesStep;
  }

  lemma {:induction false} FrameIsAlive(s: Session, a: Action)
    requires Valid(s) && Enabled(s, a) && (Delivers(s, a).Some? || a.Overtake? || a.GatewayAnswers?)
    ensures Alive(s.sockets[a.socket])
  {
  }

  lemma {:induction false} OnlyFramesJump(s: Session, a: Action)
    requires Valid(s) && Enabled(s, a) && Delivers(s, a).None?
    ensures s.client.cur.Some? ==> !Jumps(s, a, s.client.cur.value)
  {
  }

  lemma {:induction false} GapFreeIsReceived(s: Session)
    requires Valid(s) && GapFree(s)
    ensures Received(s)
  {
  }

  /** While no suspect is alive, every connection is in position and no frame jumps. */
  lemma {:induction false} CleanStep(s: Session, a: Action, suspect: set<nat>)
    requires Valid(s) && Tidy(s) && Sole(s) && Enabled(s, a) && Harmless(s, a)
    requires Tracked(s, suspect) && forall k | k in suspect :: !Alive(s.sockets[k])
    ensures Received(Step(s, a)) && !SuspectJumps(s, a, suspect) && Tracked(Step(s, a), SuspectAfter(s, a, suspect))
  {
    hide Step, Sole, GapFree, Jumps, AllBounded, Received;
    GapFreeStep(s, a);
    SameSockets(s, a);
    BoundedStep(s, a);
    ReceivedStep(s, a);
    if Bridged(s, a) {
      GapFreeIsReceived(Step(s, a));
    } else {
      FrameIsAlive(s, a);
      KeepsAlive(s, a, a.socket);
    }
    if Delivers(s, a).None? {
      OnlyFramesJump(s, a);
    } else {
      FrameIsAlive(s, a);
    }
  }

  /** While a suspect is alive it is the only live connection, and its frames decide. */
  lemma {:induction false} SuspectStep(s: Session, a: Action, suspect: set<nat>, k: nat)
    requires Valid(s) && Sole(s) && Enabled(s, a) && Tracked(s, suspect) && k in suspect && Alive(s.sockets[k])
    ensures Received(Step(s, a)) <==> !SuspectJumps(s, a, suspect)
    ensures !SuspectJumps(s, a, suspect) ==> Tracked(Step(s, a), SuspectAfter(s, a, suspect))
  {
    hide Step, GapFree, Jumps, AllBounded, Received, CurrentIsLive, Looped;
    SameSockets(s, a);
    BoundedStep(s, a);
    ReceivedStep(s, a);
    if Delivers(s, a).None? {
      OnlyFramesJump(s, a);
    } else {
      FrameIsAlive(s, a);
      assert a.socket == k;
    }
    if !Alive(Step(s, a).sockets[k]) {
      KillsAll(s, a, k);
      NoneAliveGapFree(Step(s, a));
    }
  }

  lemma {:induction false} NoneAliveGapFree(s: Session)
    requires Valid(s) && forall j | j in s.sockets :: !Alive(s.sockets[j])
    ensures Received(s) ==> GapFree(s)
  {
  }

  lemma {:induction false} TrackedStep(s: Session, a: Action, suspect: set<nat>)
    requires Valid(s) && Tidy(s) && Sole(s) && Tracked(s, suspect) && Enabled(s, a) && Harmless(s, a)
    ensures Received(Step(s, a)) <==> !SuspectJumps(s, a, suspect)
    ensures !SuspectJumps(s, a, suspect) ==> Tracked(Step(s, a), SuspectAfter(s, a, suspect))
  {
    if forall k | k in suspect :: !Alive(s.sockets[k]) {
      CleanStep(s, a, suspect);
    } else {
      var k :| k in suspect && Alive(s.sockets[k]);
      SuspectStep(s, a, suspect, k);
    }
  }

  ghost predicate ReceivedThroughout(s: Session, run: seq<Action>)
    requires Valid(s) && Feasible(s, run)
    decreases |run|
  {
    Received(s) && (run == [] || ReceivedThroughout(Step(s, run[0]), run[1..]))
  }

  /** No suspect connection delivers a frame that jumps; `suspect` are those so far. */
  ghost predicate NoSuspectJumps(s: Session, run: seq<Action>, suspect: set<nat>)
    requires Valid(s) && Feasible(s, run)
    decreases |run|
  {
    run == []
    || (!SuspectJumps(s, run[0], suspect) && NoSuspectJumps(Step(s, run[0]), run[1..], SuspectAfter(s, run[0], suspect)))
  }

  lemma {:induction false} ReceivedFrom(s: Session, run: seq<Action>, suspect: set<nat>)
    requires Valid(s) && Tidy(s) && Sole(s) && Tracked(s, suspect) && Feasible(s, run) && HarmlessRun(s, run)
    ensures ReceivedThroughout(s, run) <==> NoSuspectJumps(s, run, suspect)
    decreases |run|
  {
    hide Step, Enabled, Tidy, Sole, GapFree, AllBounded, SuspectJumps, SuspectAfter, Received;
    if run != [] {
      var s' := Step(s, run[0]);
      TidyStep(s, run[0]);
      SoleStep(s, run[0]);
      TrackedStep(s, run[0], suspect);
      if Received(s') {
        ReceivedFrom(s', run[1..], SuspectAfter(s, run[0], suspect));
      } else {
        assert !ReceivedThroughout(s', run[1..]);
      }
    }
  }

  /**
   Over any number of drops and reconnects without stale callbacks, and any fan-out: what
   each record's listener received is one interval ending at its cursor throughout, if and
   only if no connection whose replay did not meet the live feed, or on which an event was
   overtaken or dropped, delivers a frame beyond that interval's ends. Every other
   connection only ever delivers frames that adjoin.
   */
  lemma {:induction false} ContiguousDelivery(run: seq<Action>)
    requires Feasible(INIT, run) && HarmlessRun(INIT, run)
    ensures ReceivedThroughout(INIT, run) <==> NoSuspectJumps(INIT, run, {})
  {
    ReceivedFrom(INIT, run, {});
  }

  /** A connection that goes live past the event after the cursor has lost nothing yet. */
  lemma {:induction false} UnbridgedLosesNothing(s: Session, a: Action)
    requires Valid(s) && AllBounded(s) && Received(s) && Enabled(s, a) && !Bridged(s, a)
    ensures Received(Step(s, a))
  {
    ReceivedStep(s, a);
  }
}
