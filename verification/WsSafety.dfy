/**
 What every run of the subscription manager keeps: the status mirror and the
 teardown timer with no premise at all, and one socket per session exactly as long
 as no stale callback reaches a newer record.
 */
module WsSafety {
  import opened Wrappers
  import opened WsClient
  import opened WsSession

  // ---------------------------------------------------------------------------
  // With no premise: mirror, linger, no socket without a handler
  // ---------------------------------------------------------------------------

  /** wsStatus.for() shows a record exactly when there is one, with its status. */
  ghost predicate Mirrored(c: Client)
    requires WellFormed(c)
  {
    c.status == if c.cur.Some? then Some(c.records[c.cur.value].status) else None
  }

  /** A teardown timer held by a record is pending; a reconnect timer it holds is its own. */
  ghost predicate HoldsOwnTimers(rec: Record, r: nat, timers: map<nat, Timer>, nextId: nat) {
    && (rec.teardownTimer.Some? ==>
          rec.teardownTimer.value in timers && timers[rec.teardownTimer.value] == TeardownTimer(r))
    && (rec.reconnectTimer.Some? ==>
          && rec.reconnectTimer.value < nextId
          && (rec.reconnectTimer.value in timers ==> timers[rec.reconnectTimer.value] == ReconnectTimer(r)))
  }

  /** Timers and the records that hold them agree. */
  ghost predicate TimersMatch(c: Client)
    requires WellFormed(c)
  {
    && (forall r | r in c.records :: HoldsOwnTimers(c.records[r], r, c.timers, c.nextId))
    && (forall t | t in c.timers && c.timers[t].TeardownTimer? ::
          c.records[c.timers[t].rec].teardownTimer == Some(t))
  }

  ghost predicate Orderly(c: Client) {
    WellFormed(c) && Mirrored(c) && TimersMatch(c)
  }

  /** A record nobody listens to is about to be torn down. */
  ghost predicate Lingers(c: Client)
    requires WellFormed(c)
  {
    c.cur.Some? && !Listening(c) ==> c.records[c.cur.value].teardownTimer.Some?
  }

  /** The state between two callbacks. */
  ghost predicate Settled(c: Client) {
    Orderly(c) && Lingers(c)
  }

  lemma {:induction false} CancelTeardownOrderly(c: Client)
    requires Orderly(c)
    ensures Orderly(CancelTeardown(c))
  {
  }

  lemma {:induction false} TeardownOrderly(c: Client)
    requires Orderly(c)
    ensures Orderly(Teardown(c))
  {
  }

  lemma {:induction false} TeardownSettled(c: Client)
    requires Settled(c)
    ensures Settled(Teardown(c))
  {
    TeardownOrderly(c);
  }

  lemma {:induction false} ScheduleTeardownOrderly(c: Client)
    requires Orderly(c)
    ensures Settled(ScheduleTeardown(c))
  {
  }

  lemma {:induction false} OpenStartOrderly(c: Client, bearer: bool)
    requires Orderly(c)
    ensures Orderly(OpenStart(c, bearer))
  {
  }

  lemma {:induction false} RegisterOrderly(c: Client, typ: string, h: nat)
    requires Orderly(c)
    ensures Orderly(Register(c, typ, h))
  {
  }

  lemma {:induction false} SubscribeSettled(c: Client, typ: string, h: nat, bearer: bool)
    requires Settled(c)
    ensures Settled(Subscribe(c, typ, h, bearer))
  {
    CancelTeardownOrderly(c);
    OpenStartOrderly(CancelTeardown(c), bearer);
    RegisterOrderly(OpenStart(CancelTeardown(c), bearer), typ, h);
  }

  lemma {:induction false} UnsubscribeSettled(c: Client, g: nat, typ: string, h: nat)
    requires Settled(c) && g in c.registries
    ensures Settled(Unsubscribe(c, g, typ, h))
  {
    var c1 := c.(registries := c.registries[g := RemoveHandler(c.registries[g], typ, h)]);
    ScheduleTeardownOrderly(c1);
  }

  lemma {:induction false} ResumeSettled(c: Client, f: nat, ticket: bool)
    requires Settled(c) && f in c.flights
    ensures var c' := if c.flights[f].Opening? then OpenResume(c, f, ticket).0 else ReopenResume(c, f, ticket).0;
            Settled(c')
  {
  }

  /** The client once the teardown timer has fired and its record has forgotten it. */
  function Fired(c: Client, t: nat): Client
    requires WellFormed(c) && t in c.timers
  {
    var r := c.timers[t].rec;
    c.(timers := c.timers - {t}, records := c.records[r := c.records[r].(teardownTimer := None)])
  }

  lemma {:induction false} FiredOrderly(c: Client, t: nat)
    requires Orderly(c) && t in c.timers && c.timers[t].TeardownTimer?
    ensures Orderly(Fired(c, t))
  {
  }

  lemma {:induction false} TeardownFiresSettled(c: Client, t: nat)
    requires Settled(c) && t in c.timers && c.timers[t].TeardownTimer?
    ensures Settled(TeardownFires(c, t))
  {
    FiredOrderly(c, t);
    TeardownOrderly(Fired(c, t));
  }

  lemma {:induction false} ReconnectFiresSettled(c: Client, t: nat, bearer: bool)
    requires Settled(c) && t in c.timers && c.timers[t].ReconnectTimer?
    ensures Settled(ReconnectFires(c, t, bearer))
  {
  }

  lemma {:induction false} OnOpenSettled(c: Client)
    requires Settled(c)
    ensures Settled(OnOpen(c).0)
  {
  }

  lemma {:induction false} OnMessageSettled(c: Client, seqNo: nat)
    requires Settled(c)
    ensures Settled(OnMessage(c, seqNo))
  {
  }

  lemma {:induction false} OnCloseSettled(c: Client, code: int)
    requires Settled(c)
    ensures Settled(OnClose(c, code))
  {
  }

  ghost predicate Tidy(s: Session) {
    Settled(s.client)
  }

  lemma {:induction false} TidyStep(s: Session, a: Action)
    requires Valid(s) && Tidy(s) && Enabled(s, a)
    ensures Tidy(Step(s, a))
  {
    hide Settled;
    var c := s.client;
    match a
    case DoSubscribe(typ, h, bearer) => SubscribeSettled(c, typ, h, bearer);
    case DoUnsubscribe(g, typ, h) => UnsubscribeSettled(c, g, typ, h);
    case DoClose => TeardownSettled(c);
    case OpenTicket(f, granted) => ResumeSettled(c, f, granted);
    case ReopenTicket(f, granted) => ResumeSettled(c, f, granted);
    case TeardownTick(t) => TeardownFiresSettled(c, t);
    case ReconnectTick(t, bearer) => ReconnectFiresSettled(c, t, bearer);
    case SocketOpens(_) => OnOpenSettled(c);
    case Frame(k) => OnMessageSettled(c, NextFrame(s.sockets[k].phase).0);
    case LateFrame(_, q) => OnMessageSettled(c, q);
    case SocketCloses(_, code) => OnCloseSettled(c, code);
    case _ =>
  }
}
