/**
 One live socket per session, and a reconnect loop that owns the record. Both hold
 in every run up to the first stale callback, and each lemma says which callbacks
 those are: the conditions are on the state just before the callback runs.
 */
module WsOneSocket {
  import opened Wrappers
  import opened WsClient
  import opened WsSession
  import opened WsSafety

  // ---------------------------------------------------------------------------
  // One socket, one loop
  // ---------------------------------------------------------------------------

  /** The live sockets of the session are exactly its record's socket. */
  ghost predicate OneLiveSocket(s: Session)
    requires Valid(s)
  {
    forall k | k in s.sockets && Alive(s.sockets[k]) :: CurrentSocket(s.client) == Some(k)
  }

  /** At most one reopen of a record is in flight. */
  ghost predicate OneReopenEach(c: Client) {
    forall f, g | f in c.flights && g in c.flights && c.flights[f].Reopening? && c.flights[f] == c.flights[g] :: f == g
  }

  ghost predicate ReopenInFlight(c: Client, r: nat) {
    exists f :: f in c.flights && c.flights[f] == Reopening(r)
  }

  /** A record reconnects by its timer or by its reopen, one at a time, and only without a socket. */
  ghost predicate OneLoop(c: Client)
    requires WellFormed(c)
  {
    && (forall t | t in c.timers && c.timers[t].ReconnectTimer? ::
          var r := c.timers[t].rec;
          c.cur == Some(r) && c.records[r].reconnectTimer == Some(t) && c.records[r].ws.None?)
    && (c.cur.Some? ==>
          var r := c.cur.value;
          var rec := c.records[r];
          && !rec.closedByUs
          && (rec.reconnectTimer.Some? ==>
                rec.reconnectTimer.value in c.timers && c.timers[rec.reconnectTimer.value] == ReconnectTimer(r))
          && (ReopenInFlight(c, r) ==> rec.ws.None? && rec.reconnectTimer.None?))
  }

  ghost predicate Looped(c: Client)
    requires WellFormed(c)
  {
    OneLoop(c) && OneReopenEach(c)
  }

  ghost predicate CurrentIsLive(s: Session)
    requires Valid(s)
  {
    CurrentSocket(s.client).Some? ==> var k := CurrentSocket(s.client).value; k in s.sockets && Alive(s.sockets[k])
  }

  ghost predicate Sole(s: Session)
    requires Valid(s)
  {
    OneLiveSocket(s) && CurrentIsLive(s) && Looped(s.client)
  }

  /**
   The close event of a socket we closed ourselves reaches a record that has a
   socket or a reconnect timer, or would start a second loop beside a reopen.
   */
  ghost predicate StaleClose(s: Session, a: Action)
    requires Valid(s) && Enabled(s, a)
  {
    && a.SocketCloses? && s.sockets[a.socket].phase.Closing? && s.client.cur.Some?
    && var r := s.client.cur.value;
       var rec := s.client.records[r];
       rec.ws.Some? || rec.reconnectTimer.Some? || (ShouldReconnect(a.code) && ReopenInFlight(s.client, r))
  }

  /** The failing ticket of an old record's reopen reaches a newer record that is connected or waiting. */
  ghost predicate StaleReopenFailure(s: Session, a: Action)
    requires Valid(s) && Enabled(s, a)
  {
    && a.ReopenTicket? && !a.granted && s.client.cur.Some?
    && s.client.flights[a.flight] != Reopening(s.client.cur.value)
    && var rec := s.client.records[s.client.cur.value];
       rec.ws.Some? || rec.reconnectTimer.Some?
  }

  ghost predicate Harmless(s: Session, a: Action)
    requires Valid(s) && Enabled(s, a)
  {
    !StaleClose(s, a) && !StaleReopenFailure(s, a)
  }

  // Each operation of the client keeps the loop, and says what becomes of the socket.

  lemma {:induction false} CancelTeardownLooped(c: Client)
    requires Orderly(c) && Looped(c)
    ensures Looped(CancelTeardown(c)) && CurrentSocket(CancelTeardown(c)) == CurrentSocket(c)
  {
  }

  lemma {:induction false} OpenStartLooped(c: Client, bearer: bool)
    requires WellFormed(c) && Looped(c)
    ensures Looped(OpenStart(c, bearer)) && CurrentSocket(OpenStart(c, bearer)) == CurrentSocket(c)
  {
  }

  lemma {:induction false} RegisterLooped(c: Client, typ: string, h: nat)
    requires WellFormed(c) && Looped(c)
    ensures Looped(Register(c, typ, h)) && CurrentSocket(Register(c, typ, h)) == CurrentSocket(c)
  {
  }

  lemma {:induction false} ScheduleTeardownLooped(c: Client)
    requires WellFormed(c) && Looped(c)
    ensures Looped(ScheduleTeardown(c)) && CurrentSocket(ScheduleTeardown(c)) == CurrentSocket(c)
  {
  }

  lemma {:induction false} TeardownLooped(c: Client)
    requires Orderly(c) && Looped(c)
    ensures Looped(Teardown(c))
  {
  }

  lemma {:induction false} TeardownFiresLooped(c: Client, t: nat)
    requires Settled(c) && Looped(c) && t in c.timers && c.timers[t].TeardownTimer?
    ensures var c' := TeardownFires(c, t); Looped(c') && (c'.cur.Some? ==> CurrentSocket(c') == CurrentSocket(c))
  {
    FiredOrderly(c, t);
    FiredLooped(c, t);
    TeardownLooped(Fired(c, t));
    hide Looped, Orderly;
  }

  lemma {:induction false} FiredLooped(c: Client, t: nat)
    requires WellFormed(c) && Looped(c) && t in c.timers && c.timers[t].TeardownTimer? && WellFormed(Fired(c, t))
    ensures Looped(Fired(c, t)) && CurrentSocket(Fired(c, t)) == CurrentSocket(c)
  {
  }

  lemma {:induction false} OnCloseLooped(c: Client, code: int)
    requires WellFormed(c) && Looped(c)
    requires c.cur.Some? ==>
               c.records[c.cur.value].reconnectTimer.None? && !(ShouldReconnect(code) && ReopenInFlight(c, c.cur.value))
    ensures Looped(OnClose(c, code)) && CurrentSocket(OnClose(c, code)) == None
  {
  }

  lemma {:induction false} SubscribeSole(s: Session, typ: string, h: nat, bearer: bool)
    requires Valid(s) && Tidy(s) && Sole(s)
    ensures Sole(SubscribeStep(s, typ, h, bearer))
  {
    var c := s.client;
    CancelTeardownLooped(c);
    OpenStartLooped(CancelTeardown(c), bearer);
    RegisterLooped(OpenStart(CancelTeardown(c), bearer), typ, h);
    hide Looped, CancelTeardown, OpenStart, Register;
  }

  lemma {:induction false} UnsubscribeSole(s: Session, g: nat, typ: string, h: nat)
    requires Valid(s) && Tidy(s) && Sole(s) && g in s.client.registries
    ensures Sole(UnsubscribeStep(s, g, typ, h))
  {
    var c := s.client;
    var c1 := c.(registries := c.registries[g := RemoveHandler(c.registries[g], typ, h)]);
    assert Looped(c1) && CurrentSocket(c1) == CurrentSocket(c);
    ScheduleTeardownLooped(c1);
    hide Looped, ScheduleTeardown, RemoveHandler;
  }

  lemma {:induction false} CloseSole(s: Session)
    requires Valid(s) && Tidy(s) && Sole(s)
    ensures Sole(CloseStep(s))
  {
    TeardownLooped(s.client);
    hide Looped, Teardown;
  }

  lemma {:induction false} TeardownTickSole(s: Session, t: nat)
    requires Valid(s) && Tidy(s) && Sole(s) && t in s.client.timers && s.client.timers[t].TeardownTimer?
    ensures Sole(TeardownTickStep(s, t))
  {
    TeardownFiresLooped(s.client, t);
    hide Looped, TeardownFires;
  }

  lemma {:induction false} OpenTicketSole(s: Session, f: nat, granted: bool)
    requires Valid(s) && Tidy(s) && Sole(s) && f in s.client.flights && s.client.flights[f].Opening?
    ensures Sole(TicketStep(s, f, granted))
  {
  }

  lemma {:induction false} ReopenTicketSole(s: Session, a: Action)
    requires Valid(s) && Tidy(s) && Sole(s) && Enabled(s, a) && a.ReopenTicket?
    ensures Sole(TicketStep(s, a.flight, a.granted)) <==> !StaleReopenFailure(s, a)
  {
  }

  lemma {:induction false} ReconnectTickSole(s: Session, t: nat, bearer: bool)
    requires Valid(s) && Tidy(s) && Sole(s) && t in s.client.timers && s.client.timers[t].ReconnectTimer?
    ensures Sole(ReconnectTickStep(s, t, bearer))
  {
  }

  /** The close of the current socket, or one that reaches a record without socket, timer and reopen. */
  lemma {:induction false} CloseEventSole(s: Session, a: Action)
    requires Valid(s) && Sole(s) && Enabled(s, a) && a.SocketCloses? && !StaleClose(s, a)
    ensures Sole(SocketClosesStep(s, a.socket, a.code))
  {
    assert s.client.cur.Some? && Alive(s.sockets[a.socket]) ==> s.client.records[s.client.cur.value].ws.Some?;
    OnCloseLooped(s.client, a.code);
    hide Looped, OnClose;
  }

  lemma {:induction false} StaleCloseBreaks(s: Session, a: Action)
    requires Valid(s) && Tidy(s) && Sole(s) && Enabled(s, a) && StaleClose(s, a)
    ensures !Sole(SocketClosesStep(s, a.socket, a.code))
  {
    var c, s' := s.client, SocketClosesStep(s, a.socket, a.code);
    var r := c.cur.value;
    var rec := c.records[r];
    if rec.ws.Some? {
      assert Alive(s'.sockets[rec.ws.value]);
    } else if rec.reconnectTimer.Some? {
      assert s'.client.timers[rec.reconnectTimer.value] == ReconnectTimer(r);
    } else {
      var f :| f in c.flights && c.flights[f] == Reopening(r);
      assert s'.client.flights[f] == Reopening(r);
    }
  }

  lemma {:induction false} SocketOpensSole(s: Session, k: nat)
    requires Valid(s) && Sole(s) && k in s.sockets && s.sockets[k].phase.Handshake?
    ensures Sole(SocketOpensStep(s, k))
  {
  }

  lemma {:induction false} FrameSole(s: Session, k: nat)
    requires Valid(s) && Sole(s) && k in s.sockets && (s.sockets[k].phase.Replaying? || s.sockets[k].phase.Streaming?)
    ensures Sole(FrameStep(s, k))
  {
  }

  lemma {:induction false} LateFrameSole(s: Session, k: nat, q: nat)
    requires Valid(s) && Sole(s) && k in s.sockets && s.sockets[k].phase.Streaming?
    ensures Sole(LateFrameStep(s, k, q))
  {
  }

  lemma {:induction false} PhaseSole(s: Session, k: nat, p: Phase)
    requires Valid(s) && Sole(s) && k in s.sockets && Alive(s.sockets[k]) && Alive(s.sockets[k].(phase := p))
    ensures Valid(SetPhase(s, k, p)) && Sole(SetPhase(s, k, p))
  {
    hide Looped;
  }

  lemma {:induction false} SoleStep(s: Session, a: Action)
    requires Valid(s) && Tidy(s) && Sole(s) && Enabled(s, a)
    ensures Sole(Step(s, a)) <==> Harmless(s, a)
  {
    hide Sole, Tidy, Valid, SubscribeStep, UnsubscribeStep, CloseStep, TicketStep, TeardownTickStep, ReconnectTickStep,
         SocketOpensStep, FrameStep, LateFrameStep, SocketClosesStep;
    match a
    case DoSubscribe(typ, h, bearer) => SubscribeSole(s, typ, h, bearer);
    case DoUnsubscribe(g, typ, h) => UnsubscribeSole(s, g, typ, h);
    case DoClose => CloseSole(s);
    case TeardownTick(t) => TeardownTickSole(s, t);
    case OpenTicket(f, granted) => OpenTicketSole(s, f, granted);
    case ReopenTicket(_, _) => ReopenTicketSole(s, a);
    case ReconnectTick(t, bearer) => ReconnectTickSole(s, t, bearer);
    case SocketOpens(k) => SocketOpensSole(s, k);
    case GatewayAnswers(k, honoured, at, late) => PhaseSole(s, k, Answer(s.sockets[k].phase, honoured, at, late, s.log));
    case ReplayEnds(k) => PhaseSole(s, k, Streaming(s.sockets[k].phase.at + 1, s.sockets[k].phase.late));
    case Frame(k) => FrameSole(s, k);
    case Overtake(k) =>
      var p := s.sockets[k].phase;
      PhaseSole(s, k, Streaming(p.next + 1, p.late + {p.next}));
    case LateFrame(k, q) => LateFrameSole(s, k, q);
    case SocketCloses(_, _) =>
      if StaleClose(s, a) { StaleCloseBreaks(s, a); }
      else { CloseEventSole(s, a); }
    case Emit => EmitSole(s);
  }

  lemma {:induction false} EmitSole(s: Session)
    requires Valid(s) && Sole(s)
    ensures Valid(s.(log := s.log + 1)) && Sole(s.(log := s.log + 1))
  {
    hide Looped;
  }

  // ---------------------------------------------------------------------------
  // The live socket alone, stale callbacks included
  // ---------------------------------------------------------------------------

  /** The record's socket is alive. */
  ghost predicate Connected(s: Session)
    requires Valid(s)
  {
    CurrentSocket(s.client).Some? && CurrentSocket(s.client).value in s.sockets
    && Alive(s.sockets[CurrentSocket(s.client).value])
  }

  /**
   The record loses sight of its live socket: another socket's close event, a failing
   reopen ticket, a granted one for this record, or a reconnect timer that fires without
   a bearer.
   */
  ghost predicate Orphans(s: Session, a: Action)
    requires Valid(s) && Enabled(s, a)
  {
    Connected(s) &&
    match a
    case SocketCloses(j, _) => CurrentSocket(s.client) != Some(j)
    case ReopenTicket(f, granted) =>
      !granted || (s.client.flights[f] == Reopening(s.client.cur.value) && Listening(s.client))
    case ReconnectTick(_, bearer) => !bearer
    case _ => false
  }

  /** Same sockets, same current one: nothing can change about who is alive and known. */
  lemma {:induction false} SameLive(s: Session, s': Session)
    requires Valid(s) && Valid(s') && CurrentSocket(s'.client) == CurrentSocket(s.client)
    requires s'.sockets.Keys == s.sockets.Keys
    requires forall k | k in s.sockets :: Alive(s'.sockets[k]) <==> Alive(s.sockets[k])
    ensures OneLiveSocket(s') <==> OneLiveSocket(s)
  {
  }

  lemma {:induction false} CallersLive(s: Session, a: Action)
    requires Valid(s) && Tidy(s) && OneLiveSocket(s) && Enabled(s, a) && (a.DoSubscribe? || a.DoUnsubscribe?)
    ensures OneLiveSocket(Step(s, a))
  {
    SameCurrent(s, a);
    hide Step;
    SameLive(s, Step(s, a));
  }

  lemma {:induction false} SameCurrent(s: Session, a: Action)
    requires Valid(s) && Enabled(s, a) && (a.DoSubscribe? || a.DoUnsubscribe?)
    ensures CurrentSocket(Step(s, a).client) == CurrentSocket(s.client) && Step(s, a).sockets == s.sockets
  {
  }

  lemma {:induction false} TeardownLive(s: Session, a: Action)
    requires Valid(s) && Tidy(s) && OneLiveSocket(s) && Enabled(s, a) && (a.DoClose? || a.TeardownTick?)
    ensures OneLiveSocket(Step(s, a))
  {
    hide SubscribeStep, UnsubscribeStep, TicketStep, ReconnectTickStep, SocketOpensStep, FrameStep, LateFrameStep,
         SocketClosesStep;
  }

  lemma {:induction false} OpenTicketLive(s: Session, f: nat, granted: bool)
    requires Valid(s) && OneLiveSocket(s) && f in s.client.flights && s.client.flights[f].Opening?
    ensures OneLiveSocket(TicketStep(s, f, granted))
  {
  }

  lemma {:induction false} ReopenTicketLive(s: Session, a: Action)
    requires Valid(s) && OneLiveSocket(s) && Enabled(s, a) && a.ReopenTicket?
    ensures OneLiveSocket(TicketStep(s, a.flight, a.granted)) <==> !Orphans(s, a)
  {
    var s' := TicketStep(s, a.flight, a.granted);
    if Orphans(s, a) {
      var k := CurrentSocket(s.client).value;
      assert k in s'.sockets && Alive(s'.sockets[k]);
      assert CurrentSocket(s'.client) != Some(k);
    }
  }

  lemma {:induction false} ReconnectTickLive(s: Session, a: Action)
    requires Valid(s) && OneLiveSocket(s) && Enabled(s, a) && a.ReconnectTick?
    ensures OneLiveSocket(ReconnectTickStep(s, a.timer, a.bearer)) <==> !Orphans(s, a)
  {
    var s' := ReconnectTickStep(s, a.timer, a.bearer);
    if Orphans(s, a) {
      var k := CurrentSocket(s.client).value;
      assert k in s'.sockets && Alive(s'.sockets[k]);
    }
  }

  lemma {:induction false} SocketClosesLive(s: Session, a: Action)
    requires Valid(s) && OneLiveSocket(s) && Enabled(s, a) && a.SocketCloses?
    ensures OneLiveSocket(SocketClosesStep(s, a.socket, a.code)) <==> !Orphans(s, a)
  {
    var s' := SocketClosesStep(s, a.socket, a.code);
    assert CurrentSocket(s'.client) == None;
    if Orphans(s, a) {
      var k := CurrentSocket(s.client).value;
      assert k in s'.sockets && Alive(s'.sockets[k]);
    }
  }

  lemma {:induction false} TransportLive(s: Session, a: Action)
    requires Valid(s) && OneLiveSocket(s) && Enabled(s, a)
    requires a.SocketOpens? || a.GatewayAnswers? || a.ReplayEnds? || a.Frame? || a.Overtake? || a.LateFrame? || a.Emit?
    ensures OneLiveSocket(Step(s, a))
  {
    hide SubscribeStep, UnsubscribeStep, CloseStep, TicketStep, TeardownTickStep, ReconnectTickStep, SocketClosesStep;
    SameLive(s, Step(s, a));
  }

  /** From any state with one live socket at most: a step keeps that if and only if it orphans no socket. */
  lemma {:induction false} OneLiveStep(s: Session, a: Action)
    requires Valid(s) && Tidy(s) && OneLiveSocket(s) && Enabled(s, a)
    ensures OneLiveSocket(Step(s, a)) <==> !Orphans(s, a)
  {
    hide OneLiveSocket, Tidy, TicketStep, ReconnectTickStep, SocketClosesStep;
    match a
    case OpenTicket(f, granted) => OpenTicketLive(s, f, granted);
    case ReopenTicket(_, _) => ReopenTicketLive(s, a);
    case ReconnectTick(_, _) => ReconnectTickLive(s, a);
    case SocketCloses(_, _) => SocketClosesLive(s, a);
    case _ =>
      hide Step;
      if a.DoSubscribe? || a.DoUnsubscribe? {
        CallersLive(s, a);
      } else if a.DoClose? || a.TeardownTick? {
        TeardownLive(s, a);
      } else {
        TransportLive(s, a);
      }
  }

  /** A reconnect timer fires with a bearer while a reopen of the current record is in flight. */
  ghost predicate DoublesReopen(s: Session, a: Action)
    requires Valid(s) && Enabled(s, a)
  {
    a.ReconnectTick? && a.bearer && s.client.cur.Some? && ReopenInFlight(s.client, s.client.cur.value)
  }

  /** Each record has at most one reopen in flight after a step, if and only if the step doubles none. */
  lemma {:induction false} OneReopenStep(s: Session, a: Action)
    requires Valid(s) && Enabled(s, a) && OneReopenEach(s.client)
    ensures OneReopenEach(Step(s, a).client) <==> !DoublesReopen(s, a)
  {
    FlightsStep(s, a);
    var c, c' := s.client, Step(s, a).client;
    hide Step;
    if DoublesReopen(s, a) {
      var f :| f in c.flights && c.flights[f] == Reopening(c.cur.value);
      assert c'.flights[f] == c'.flights[c.nextId];
    }
  }

  lemma {:induction false} SubscribeFlights(c: Client, typ: string, h: nat, bearer: bool)
    requires WellFormed(c)
    ensures Subscribe(c, typ, h, bearer).flights ==
            if bearer && c.cur.None? then c.flights[c.nextId := Opening] else c.flights
  {
  }

  lemma {:induction false} TicketFlights(s: Session, f: nat, granted: bool)
    requires Valid(s) && f in s.client.flights
    ensures TicketStep(s, f, granted).client.flights == s.client.flights - {f}
  {
  }

  lemma {:induction false} TimerFlights(s: Session, a: Action)
    requires Valid(s) && Enabled(s, a) && (a.DoUnsubscribe? || a.DoClose? || a.TeardownTick? || a.ReconnectTick?)
    ensures Step(s, a).client.flights ==
            if a.ReconnectTick? && a.bearer && s.client.cur.Some?
            then s.client.flights[s.client.nextId := Reopening(s.client.cur.value)]
            else s.client.flights
  {
    hide SubscribeStep, TicketStep, SocketOpensStep, FrameStep, LateFrameStep, SocketClosesStep;
  }

  lemma {:induction false} TransportFlights(s: Session, a: Action)
    requires Valid(s) && Enabled(s, a)
    requires a.SocketOpens? || a.GatewayAnswers? || a.ReplayEnds? || a.Frame? || a.Overtake? || a.LateFrame?
             || a.SocketCloses? || a.Emit?
    ensures Step(s, a).client.flights == s.client.flights
  {
    hide SubscribeStep, UnsubscribeStep, CloseStep, TicketStep, TeardownTickStep, ReconnectTickStep;
  }

  /** What a step does to the tickets asked for. */
  lemma {:induction false} FlightsStep(s: Session, a: Action)
    requires Valid(s) && Enabled(s, a)
    ensures var c, c' := s.client, Step(s, a).client;
            if a.ReconnectTick? && a.bearer && c.cur.Some? then c'.flights == c.flights[c.nextId := Reopening(c.cur.value)]
            else if a.DoSubscribe? && a.bearer && c.cur.None? then c'.flights == c.flights[c.nextId := Opening]
            else if a.OpenTicket? || a.ReopenTicket? then c'.flights == c.flights - {a.flight}
            else c'.flights == c.flights
  {
    hide Subscribe, TicketStep;
    match a
    case DoSubscribe(typ, h, bearer) => SubscribeFlights(s.client, typ, h, bearer);
    case OpenTicket(f, granted) => TicketFlights(s, f, granted);
    case ReopenTicket(f, granted) => TicketFlights(s, f, granted);
    case _ =>
      hide Step;
      if a.DoUnsubscribe? || a.DoClose? || a.TeardownTick? || a.ReconnectTick? {
        TimerFlights(s, a);
      } else {
        TransportFlights(s, a);
      }
  }

  // ---------------------------------------------------------------------------
  // The reconnect loop owns the record
  // ---------------------------------------------------------------------------

  /** The promise of the comment in open(): a record is open or its loop is running. */
  ghost predicate LoopOwnsRecord(c: Client)
    requires WellFormed(c)
  {
    c.cur.Some? ==>
      var rec := c.records[c.cur.value];
      rec.ws.Some? || rec.reconnectTimer.Some? || ReopenInFlight(c, c.cur.value)
  }

  /** A reopen's ticket arrives while its record is lingering without handlers. */
  ghost predicate AbandonedReopen(s: Session, a: Action)
    requires Valid(s) && Enabled(s, a)
  {
    && a.ReopenTicket? && a.granted
    && s.client.cur == Some(s.client.flights[a.flight].rec)
    && !Listening(s.client)
  }

  lemma {:induction false} FlightsLeft(c: Client, f: nat, r: nat)
    requires f in c.flights && c.flights[f] != Reopening(r)
    ensures ReopenInFlight(c, r) ==> ReopenInFlight(c.(flights := c.flights - {f}), r)
  {
    if ReopenInFlight(c, r) {
      var g :| g in c.flights && c.flights[g] == Reopening(r);
      assert (c.flights - {f})[g] == Reopening(r);
    }
  }

  lemma {:induction false} ReopenTicketOwned(s: Session, a: Action)
    requires Valid(s) && Tidy(s) && Sole(s) && LoopOwnsRecord(s.client) && Enabled(s, a) && a.ReopenTicket?
    ensures LoopOwnsRecord(Step(s, a).client) <==> !AbandonedReopen(s, a)
  {
    var c := s.client;
    if c.cur.Some? && c.flights[a.flight] != Reopening(c.cur.value) {
      FlightsLeft(c, a.flight, c.cur.value);
    }
  }

  lemma {:induction false} StartsOwned(s: Session, a: Action)
    requires Valid(s) && Tidy(s) && Sole(s) && LoopOwnsRecord(s.client) && Enabled(s, a)
    requires a.ReconnectTick? || a.OpenTicket?
    ensures LoopOwnsRecord(Step(s, a).client)
  {
    var c, c' := s.client, Step(s, a).client;
    if a.ReconnectTick? && c'.cur.Some? {
      assert c'.flights[c.nextId] == Reopening(c'.cur.value);
    } else if a.OpenTicket? && c.cur.Some? {
      FlightsLeft(c, a.flight, c.cur.value);
    }
  }

  lemma {:induction false} OthersOwned(s: Session, a: Action)
    requires Valid(s) && Tidy(s) && Sole(s) && LoopOwnsRecord(s.client) && Enabled(s, a) && Harmless(s, a)
    requires !a.ReopenTicket? && !a.ReconnectTick? && !a.OpenTicket?
    ensures LoopOwnsRecord(Step(s, a).client)
  {
    hide Tidy, TicketStep, ReconnectTickStep, OneReopenEach, OneLiveSocket, CurrentIsLive;
    var c, c' := s.client, Step(s, a).client;
    if c.cur.Some? && ReopenInFlight(c, c.cur.value) {
      var f :| f in c.flights && c.flights[f] == Reopening(c.cur.value);
      assert c'.flights[f] == Reopening(c.cur.value);
    }
  }

  lemma {:induction false} OwnedStep(s: Session, a: Action)
    requires Valid(s) && Tidy(s) && Sole(s) && LoopOwnsRecord(s.client) && Enabled(s, a) && Harmless(s, a)
    ensures LoopOwnsRecord(Step(s, a).client) <==> !AbandonedReopen(s, a)
  {
    if a.ReopenTicket? {
      ReopenTicketOwned(s, a);
    } else if a.ReconnectTick? || a.OpenTicket? {
      StartsOwned(s, a);
    } else {
      OthersOwned(s, a);
    }
  }
}
