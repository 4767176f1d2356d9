/**
 Replay after a reconnect. The record's cursor and the gateway's replay together
 put each connection in position to continue what the listener has received, exactly
 when the live feed takes over where the replay ends and stays in order.
 */
module WsResume {
  import opened Wrappers
  import opened WsClient
  import opened WsSession
  import opened WsSafety
  import opened WsOneSocket
  import opened WsRuns

  /** The smallest seq received. */
  ghost function Lowest(seen: seq<nat>): nat
    requires seen != []
  {
    if |seen| == 1 then seen[0] else Min(Lowest(seen[..|seen| - 1]), seen[|seen| - 1])
  }

  lemma {:induction false} LowestGrows(seen: seq<nat>, q: nat)
    ensures Lowest(seen + [q]) == if seen == [] then q else Min(Lowest(seen), q)
  {
    assert (seen + [q])[..|seen|] == seen;
  }

  /** The received seqs are the whole interval from the smallest of them to the cursor. */
  ghost predicate Contiguous(seen: seq<nat>, cursor: nat) {
    && (cursor == 0 <==> seen == [])
    && (seen != [] ==> 1 <= Lowest(seen) <= cursor && forall q: nat :: q in seen <==> Lowest(seen) <= q <= cursor)
  }

  /** A frame that leaves what was received in one piece. */
  ghost predicate Adjoins(seen: seq<nat>, cursor: nat, q: nat) {
    seen != [] ==> Lowest(seen) <= q + 1 && q <= cursor + 1
  }

  /** Receiving q keeps the interval in one piece exactly when q lies in it or next to it. */
  lemma {:induction false} ContiguousGrows(seen: seq<nat>, cursor: nat, q: nat)
    requires Contiguous(seen, cursor) && 1 <= q
    ensures Contiguous(seen + [q], if q > cursor then q else cursor) <==> Adjoins(seen, cursor, q)
  {
    var seen', cursor' := seen + [q], if q > cursor then q else cursor;
    LowestGrows(seen, q);
    hide Lowest;
    assert forall p: nat :: p in seen' <==> p in seen || p == q;
    if seen != [] && !Adjoins(seen, cursor, q) {
      var hole := if q > cursor then cursor + 1 else Lowest(seen) - 1;
      assert hole !in seen' && Lowest(seen') <= hole <= cursor';
    }
  }

  /** Where a live connection stands relative to the cursor of its record. */
  ghost predicate Positioned(k: Socket, cursor: nat, seen: seq<nat>, log: nat) {
    match k.phase
    case Upgraded(replayFrom) => replayFrom == cursor
    case Replaying(next, last, at, late) =>
      late == {} && seen != [] && next == cursor + 1 <= last + 1 && Lowest(seen) <= at + 1 && at <= last <= log
    case Streaming(next, late) =>
      late == {} && 1 <= next <= log + 1 && (seen != [] ==> Lowest(seen) <= next <= cursor + 1)
    case _ => true
  }

  ghost predicate GapFree(s: Session)
    requires Valid(s)
  {
    && (forall r | r in s.client.records ::
          var cursor := s.client.records[r].lastSeenSeq;
          Contiguous(s.delivered[r], cursor) && cursor <= s.log)
    && (s.client.cur.Some? ==>
          var r := s.client.cur.value;
          forall k | k in s.sockets && Alive(s.sockets[k]) ::
            Positioned(s.sockets[k], s.client.records[r].lastSeenSeq, s.delivered[r], s.log))
  }

  /**
   The live feed takes over where the replay ends and stays in order. At the answer: no
   event is still to be fanned out late, and nothing was asked for, or the live feed starts
   no earlier than what was received and no later than the replay's end. Afterwards: no
   event is overtaken.
   */
  ghost predicate Bridged(s: Session, a: Action)
    requires Valid(s) && Enabled(s, a)
  {
    && !a.Overtake?
    && (a.GatewayAnswers? ==>
          var p := s.sockets[a.socket].phase;
          && a.late == {}
          && (p.replayFrom == 0
              || (StartsInReach(s, a.at) && (a.at <= p.replayFrom || (a.honoured && a.at - p.replayFrom <= REPLAY_LIMIT)))))
  }

  /** The live feed does not start below what the current record has received. */
  ghost predicate StartsInReach(s: Session, at: nat)
    requires Valid(s)
  {
    s.client.cur.Some? && s.delivered[s.client.cur.value] != [] ==> Lowest(s.delivered[s.client.cur.value]) <= at + 1
  }

  lemma {:induction false} FrameGapFree(s: Session, a: Action)
    requires Valid(s) && Sole(s) && GapFree(s) && Enabled(s, a) && a.Frame?
    ensures GapFree(Step(s, a))
  {
    var c, s' := s.client, Step(s, a);
    assert Alive(s.sockets[a.socket]);
    var r := c.cur.value;
    var cursor, q := c.records[r].lastSeenSeq, NextFrame(s.sockets[a.socket].phase).0;
    ContiguousGrows(s.delivered[r], cursor, q);
    LowestGrows(s.delivered[r], q);
    hide Lowest;
    assert s'.delivered[r] == s.delivered[r] + [q];
  }

  /** An overtaken event leaves its connection out of position. */
  lemma {:induction false} OvertakeGapFree(s: Session, a: Action)
    requires Valid(s) && Sole(s) && GapFree(s) && Enabled(s, a) && (a.Overtake? || a.LateFrame?)
    ensures a.Overtake? && !GapFree(Step(s, a))
  {
    var k := a.socket;
    assert Alive(s.sockets[k]);
    assert CurrentSocket(s.client) == Some(k);
    if a.Overtake? {
      var s' := Step(s, a);
      assert Alive(s'.sockets[k]);
      assert s.sockets[k].phase.next in s'.sockets[k].phase.late;
    }
  }

  lemma {:induction false} GatewayAnswersGapFree(s: Session, a: Action)
    requires Valid(s) && Sole(s) && GapFree(s) && Enabled(s, a) && a.GatewayAnswers?
    ensures GapFree(Step(s, a)) <==> Bridged(s, a)
  {
    hide Lowest;
    var k, r := a.socket, s.client.cur;
    assert Alive(s.sockets[k]);
    var s' := Step(s, a);
    assert Alive(s'.sockets[k]);
  }

  lemma {:induction false} TransportGapFree(s: Session, a: Action)
    requires Valid(s) && Sole(s) && GapFree(s) && Enabled(s, a) && (a.SocketOpens? || a.ReplayEnds? || a.Emit?)
    ensures GapFree(Step(s, a))
  {
    if !a.Emit? {
      assert Alive(s.sockets[a.socket]);
    }
  }

  /** Nothing that GapFree speaks of moves, except that sockets may die and the record may go. */
  ghost predicate Quiet(s: Session, s': Session)
    requires Valid(s) && Valid(s')
  {
    && s'.log == s.log && s'.delivered == s.delivered
    && (s'.client.cur == s.client.cur || s'.client.cur.None?)
    && (forall r | r in s.client.records :: s'.client.records[r].lastSeenSeq == s.client.records[r].lastSeenSeq)
    && (forall k | k in s'.sockets && Alive(s'.sockets[k]) :: k in s.sockets && s.sockets[k] == s'.sockets[k])
  }

  lemma {:induction false} QuietGapFree(s: Session, s': Session)
    requires Valid(s) && Valid(s') && Quiet(s, s') && GapFree(s)
    ensures GapFree(s')
  {
  }

  lemma {:induction false} SubscribeQuiet(s: Session, a: Action)
    requires Valid(s) && Enabled(s, a) && (a.DoSubscribe? || a.DoUnsubscribe?)
    ensures Quiet(s, Step(s, a))
  {
  }

  lemma {:induction false} TeardownQuiet(s: Session, a: Action)
    requires Valid(s) && Enabled(s, a) && (a.DoClose? || a.TeardownTick? || a.ReconnectTick? || a.SocketCloses?)
    ensures Quiet(s, Step(s, a))
  {
    hide Quiet, CloseStep, TeardownTickStep, ReconnectTickStep, SocketClosesStep;
    match a
    case DoClose => CloseQuiet(s);
    case TeardownTick(t) => TeardownTickQuiet(s, t);
    case ReconnectTick(t, bearer) => ReconnectTickQuiet(s, t, bearer);
    case SocketCloses(k, code) => SocketClosesQuiet(s, k, code);
  }

  lemma {:induction false} CloseQuiet(s: Session)
    requires Valid(s)
    ensures Quiet(s, CloseStep(s))
  {
  }

  lemma {:induction false} TeardownTickQuiet(s: Session, t: nat)
    requires Valid(s) && t in s.client.timers && s.client.timers[t].TeardownTimer?
    ensures Quiet(s, TeardownTickStep(s, t))
  {
  }

  lemma {:induction false} ReconnectTickQuiet(s: Session, t: nat, bearer: bool)
    requires Valid(s) && t in s.client.timers && s.client.timers[t].ReconnectTimer?
    ensures Quiet(s, ReconnectTickStep(s, t, bearer))
  {
  }

  lemma {:induction false} SocketClosesQuiet(s: Session, k: nat, code: int)
    requires Valid(s) && k in s.sockets
    ensures Quiet(s, SocketClosesStep(s, k, code))
  {
  }

  lemma {:induction false} RefusedTicketQuiet(s: Session, a: Action)
    requires Valid(s) && Enabled(s, a) && (a.OpenTicket? || a.ReopenTicket?)
    requires Step(s, a).client.nextId == s.client.nextId
    ensures Quiet(s, Step(s, a))
  {
    assert Step(s, a).delivered == s.delivered;
  }

  /** A socket built for the current record promises nothing yet. */
  lemma {:induction false} BuiltGapFree(s: Session, s': Session, built: nat)
    requires Valid(s) && Valid(s') && Sole(s) && GapFree(s)
    requires s'.sockets == s.sockets[built := Socket(Handshake)] && s'.log == s.log
    requires CurrentSocket(s.client).None?
    requires forall r | r in s'.client.records ::
      if r in s.client.records
      then s'.client.records[r].lastSeenSeq == s.client.records[r].lastSeenSeq && s'.delivered[r] == s.delivered[r]
      else s'.client.records[r].lastSeenSeq == 0 && s'.delivered[r] == []
    ensures GapFree(s')
  {
    assert forall k | k in s'.sockets && Alive(s'.sockets[k]) :: k == built;
  }

  lemma {:induction false} TicketGapFree(s: Session, a: Action)
    requires Valid(s) && Sole(s) && GapFree(s) && Enabled(s, a) && (a.OpenTicket? || a.ReopenTicket?)
    ensures GapFree(Step(s, a))
  {
    hide GapFree, OneReopenEach;
    var s' := Step(s, a);
    if s'.client.nextId == s.client.nextId {
      RefusedTicketQuiet(s, a);
      QuietGapFree(s, s');
    } else {
      if a.ReopenTicket? {
        assert ReopenInFlight(s.client, s.client.cur.value);
      }
      BuiltGapFree(s, s', s.client.nextId);
    }
  }

  lemma {:induction false} GapFreeStep(s: Session, a: Action)
    requires Valid(s) && Tidy(s) && Sole(s) && GapFree(s) && Enabled(s, a) && Harmless(s, a)
    ensures GapFree(Step(s, a)) <==> Bridged(s, a)
  {
    if a.Frame? {
      FrameGapFree(s, a);
    } else if a.Overtake? || a.LateFrame? {
      OvertakeGapFree(s, a);
    } else if a.GatewayAnswers? {
      GatewayAnswersGapFree(s, a);
    } else if a.SocketOpens? || a.ReplayEnds? || a.Emit? {
      TransportGapFree(s, a);
    } else if a.OpenTicket? || a.ReopenTicket? {
      TicketGapFree(s, a);
    } else {
      if a.DoSubscribe? || a.DoUnsubscribe? {
        SubscribeQuiet(s, a);
      } else {
        TeardownQuiet(s, a);
      }
      QuietGapFree(s, Step(s, a));
    }
  }

  // ---------------------------------------------------------------------------
  // Every run
  // ---------------------------------------------------------------------------

  ghost predicate BridgedRun(s: Session, run: seq<Action>)
    requires Valid(s) && Feasible(s, run)
    decreases |run|
  {
    run == [] || (Bridged(s, run[0]) && BridgedRun(Step(s, run[0]), run[1..]))
  }

  ghost predicate GapFreeThroughout(s: Session, run: seq<Action>)
    requires Valid(s) && Feasible(s, run)
    decreases |run|
  {
    GapFree(s) && (run == [] || GapFreeThroughout(Step(s, run[0]), run[1..]))
  }

  lemma {:induction false} GapFreeFrom(s: Session, run: seq<Action>)
    requires Valid(s) && Tidy(s) && Sole(s) && GapFree(s) && Feasible(s, run) && HarmlessRun(s, run)
    ensures GapFreeThroughout(s, run) <==> BridgedRun(s, run)
    ensures BridgedRun(s, run) ==> GapFree(After(s, run))
    decreases |run|
  {
    if run != [] {
      var s' := Step(s, run[0]);
      TidyStep(s, run[0]);
      SoleStep(s, run[0]);
      GapFreeStep(s, run[0]);
      if GapFree(s') {
        GapFreeFrom(s', run[1..]);
      } else {
        assert !GapFreeThroughout(s', run[1..]);
      }
    }
  }

  /**
   Over any number of drops and reconnects without stale callbacks: the seqs each
   record's listener received are one contiguous interval ending at its cursor, if
   every replay reaches the live feed; and the connections stay positioned for it
   only if every replay does.
   */
  lemma {:induction false} GapFreeResume(run: seq<Action>)
    requires Feasible(INIT, run) && HarmlessRun(INIT, run)
    ensures GapFreeThroughout(INIT, run) <==> BridgedRun(INIT, run)
    ensures BridgedRun(INIT, run) ==>
              var s := After(INIT, run);
              forall r | r in s.client.records :: Contiguous(s.delivered[r], s.client.records[r].lastSeenSeq)
  {
    GapFreeFrom(INIT, run);
  }

  /** The cursor of a record in s is not smaller in s', where the record still is. */
  ghost predicate CursorKept(s: Session, s': Session, r: nat) {
    r in s.client.records && r in s'.client.records
    && s.client.records[r].lastSeenSeq <= s'.client.records[r].lastSeenSeq
  }

  lemma {:induction false} TicketCursorKept(s: Session, f: nat, granted: bool, r: nat)
    requires Valid(s) && f in s.client.flights && r in s.client.records
    ensures CursorKept(s, TicketStep(s, f, granted), r)
  {
  }

  lemma {:induction false} TransportCursorKept(s: Session, a: Action, r: nat)
    requires Valid(s) && Enabled(s, a) && r in s.client.records
    requires a.SocketOpens? || a.GatewayAnswers? || a.ReplayEnds? || a.Frame? || a.Overtake? || a.LateFrame? || a.Emit?
    ensures CursorKept(s, Step(s, a), r)
  {
    hide SubscribeStep, UnsubscribeStep, CloseStep, TicketStep, TeardownTickStep, ReconnectTickStep, SocketClosesStep;
  }

  lemma {:induction false} CursorStep(s: Session, a: Action, r: nat)
    requires Valid(s) && Enabled(s, a) && r in s.client.records
    ensures CursorKept(s, Step(s, a), r)
  {
    if a.OpenTicket? || a.ReopenTicket? {
      TicketCursorKept(s, a.flight, a.granted, r);
      assert Step(s, a) == TicketStep(s, a.flight, a.granted);
    } else if a.SocketOpens? || a.GatewayAnswers? || a.ReplayEnds? || a.Frame? || a.Overtake? || a.LateFrame? || a.Emit? {
      TransportCursorKept(s, a, r);
    } else {
      hide Step;
      if a.DoSubscribe? || a.DoUnsubscribe? {
        SubscribeQuiet(s, a);
      } else {
        TeardownQuiet(s, a);
      }
    }
  }

  /** With no premise: no run moves the cursor of any record backwards. */
  lemma {:induction false} CursorNeverRetreats(s: Session, run: seq<Action>, r: nat)
    requires Valid(s) && Feasible(s, run) && r in s.client.records
    ensures CursorKept(s, After(s, run), r)
    decreases |run|
  {
    hide Step, Valid, Enabled;
    if run != [] {
      CursorStep(s, run[0], r);
      CursorNeverRetreats(Step(s, run[0]), run[1..], r);
    }
  }

  // ---------------------------------------------------------------------------
  // A gap is for good
  // ---------------------------------------------------------------------------

  /** No frame this connection can still carry is q, provided q was fanned out before it registers. */
  ghost predicate FramesPast(k: Socket, q: nat) {
    match k.phase
    case Upgraded(replayFrom) => q < replayFrom
    case Replaying(next, last, at, late) => q < next && q <= at && q !in late
    case Streaming(next, late) => q < next && q !in late
    case _ => true
  }

  /** Record r's cursor has passed q, its listener has not received q, and no connection of r will bring it. */
  ghost predicate Skipped(s: Session, r: nat, q: nat)
    requires Valid(s)
  {
    && r in s.client.records && q !in s.delivered[r] && q < s.client.records[r].lastSeenSeq
    && (s.client.cur == Some(r) ==> forall k | k in s.sockets && Alive(s.sockets[k]) :: FramesPast(s.sockets[k], q))
  }

  /** The fan-out of q is over before the answered connection registers. */
  predicate FannedOut(a: Action, q: nat) {
    a.GatewayAnswers? ==> q <= a.at && q !in a.late
  }

  lemma {:induction false} SkippedFrame(s: Session, a: Action, r: nat, q: nat)
    requires Valid(s) && Enabled(s, a) && Skipped(s, r, q) && (a.Frame? || a.LateFrame?)
    ensures Skipped(Step(s, a), r, q)
  {
    assert Alive(s.sockets[a.socket]);
  }

  lemma {:induction false} SkippedTransport(s: Session, a: Action, r: nat, q: nat)
    requires Valid(s) && Enabled(s, a) && Skipped(s, r, q) && FannedOut(a, q)
    requires a.SocketOpens? || a.GatewayAnswers? || a.ReplayEnds? || a.Overtake? || a.Emit?
    ensures Skipped(Step(s, a), r, q)
  {
    if !a.Emit? {
      assert Alive(s.sockets[a.socket]);
    }
  }

  lemma {:induction false} SkippedQuiet(s: Session, s': Session, r: nat, q: nat)
    requires Valid(s) && Valid(s') && Quiet(s, s') && Skipped(s, r, q)
    ensures Skipped(s', r, q)
  {
  }

  lemma {:induction false} SkippedTicket(s: Session, a: Action, r: nat, q: nat)
    requires Valid(s) && Enabled(s, a) && Skipped(s, r, q) && (a.OpenTicket? || a.ReopenTicket?)
    ensures Skipped(Step(s, a), r, q)
  {
    hide SubscribeStep, UnsubscribeStep, CloseStep, TeardownTickStep, ReconnectTickStep, SocketOpensStep, FrameStep,
         LateFrameStep, SocketClosesStep;
  }

  lemma {:induction false} SkippedStep(s: Session, a: Action, r: nat, q: nat)
    requires Valid(s) && Enabled(s, a) && Skipped(s, r, q) && FannedOut(a, q)
    ensures Skipped(Step(s, a), r, q)
  {
    hide Step, Skipped, Quiet;
    if a.Frame? || a.LateFrame? {
      SkippedFrame(s, a, r, q);
    } else if a.SocketOpens? || a.GatewayAnswers? || a.ReplayEnds? || a.Overtake? || a.Emit? {
      SkippedTransport(s, a, r, q);
    } else if a.OpenTicket? || a.ReopenTicket? {
      SkippedTicket(s, a, r, q);
    } else {
      if a.DoSubscribe? || a.DoUnsubscribe? {
        SubscribeQuiet(s, a);
      } else {
        TeardownQuiet(s, a);
      }
      SkippedQuiet(s, Step(s, a), r, q);
    }
  }

  /**
   An event that a record skipped, and whose fan-out is over before any later connection
   registers, is never delivered to it by any later run, stale callbacks included.
   */
  lemma {:induction false} SkippedForGood(s: Session, run: seq<Action>, r: nat, q: nat)
    requires Valid(s) && Skipped(s, r, q) && Feasible(s, run)
    requires forall i | 0 <= i < |run| :: FannedOut(run[i], q)
    ensures r in After(s, run).client.records && q !in After(s, run).delivered[r]
    decreases |run|
  {
    hide Step, FannedOut;
    if run != [] {
      SkippedStep(s, run[0], r, q);
      assert forall i | 0 <= i < |run[1..]| :: run[1..][i] == run[i + 1];
      SkippedForGood(Step(s, run[0]), run[1..], r, q);
    }
  }

  /** After a replay that falls short, the first live frame skips the event after the cursor. */
  lemma {:induction false} ShortReplaySkips(s: Session, k: nat)
    requires Valid(s) && Sole(s) && k in s.sockets && s.sockets[k].phase.Streaming? && s.client.cur.Some?
    requires var r := s.client.cur.value;
             var cursor, p := s.client.records[r].lastSeenSeq, s.sockets[k].phase;
             && Contiguous(s.delivered[r], cursor) && 0 < cursor
             && cursor + 1 < p.next <= s.log && cursor + 1 !in p.late
    ensures Skipped(Step(s, Frame(k)), s.client.cur.value, s.client.records[s.client.cur.value].lastSeenSeq + 1)
  {
    assert Alive(s.sockets[k]);
  }
}
