/**
 The subscription manager together with its surroundings: the browser's sockets,
 the portal's gateway (internal/portal/wsgateway/gateway.go) and the session's
 event log. A state machine whose actions are everything that can happen to one
 session, in any order.
 */
module WsSession {
  import opened Wrappers
  import opened WsClient

  /**
   A socket as both ends see it. The gateway registers a connection for live events,
   looks at the replay frame, replays `next..last` and then goes live. The log fans an
   event out after its commit, so registration can come before or after: the events up
   to `at` were fanned out before it, except those in `late`. Live, `next` is the next
   event in order and `late` are the ones that others overtook; such an event may
   still come, or be dropped and never come.
   */
  datatype Phase =
    | Handshake
    | Upgraded(replayFrom: nat)
    | Replaying(next: nat, last: nat, at: nat, late: set<nat>)
    | Streaming(next: nat, late: set<nat>)
    | Closing
    | Closed

  datatype Socket = Socket(phase: Phase)

  datatype Session = Session(
    client: Client,
    sockets: map<nat, Socket>,
    log: nat,                       // events 1..log exist
    delivered: map<nat, seq<nat>>)  // per record, the seqs its listener received

  const INIT: Session := Session(EMPTY, map[], 0, map[])

  /** The gateway replays at most this many events (gateway.go:249). */
  const REPLAY_LIMIT: nat := 1000

  datatype Action =
    | DoSubscribe(typ: string, handler: nat, bearer: bool)
    | DoUnsubscribe(registry: nat, typ: string, handler: nat)
    | DoClose
    | OpenTicket(flight: nat, granted: bool)
    | ReopenTicket(flight: nat, granted: bool)
    | TeardownTick(timer: nat)
    | ReconnectTick(timer: nat, bearer: bool)
    | SocketOpens(socket: nat)
    | GatewayAnswers(socket: nat, honoured: bool, at: nat, late: set<nat>)
    | ReplayEnds(socket: nat)
    | Frame(socket: nat)
    | Overtake(socket: nat)                 // the next live event is fanned out later, or dropped
    | LateFrame(socket: nat, seqNo: nat)    // one that was overtaken arrives
    | SocketCloses(socket: nat, code: int)
    | Emit

  predicate Alive(k: Socket) {
    !k.phase.Closing? && !k.phase.Closed?
  }

  ghost predicate Valid(s: Session) {
    && WellFormed(s.client)
    && (forall k | k in s.sockets :: k < s.client.nextId)
    && s.delivered.Keys == s.client.records.Keys
  }

  /** What the browser, the gateway and the callers can do in state s. */
  predicate Enabled(s: Session, a: Action)
    requires Valid(s)
  {
    match a
    case DoSubscribe(_, _, _) => true
    case DoUnsubscribe(g, _, _) => g in s.client.registries
    case DoClose => true
    case OpenTicket(f, _) => f in s.client.flights && s.client.flights[f].Opening?
    case ReopenTicket(f, _) => f in s.client.flights && s.client.flights[f].Reopening?
    case TeardownTick(t) => t in s.client.timers && s.client.timers[t].TeardownTimer?
    case ReconnectTick(t, _) => t in s.client.timers && s.client.timers[t].ReconnectTimer?
    case SocketOpens(k) => k in s.sockets && s.sockets[k].phase.Handshake?
    case GatewayAnswers(k, _, at, late) =>
      k in s.sockets && s.sockets[k].phase.Upgraded? && at <= s.log && forall q | q in late :: 1 <= q <= at
    case ReplayEnds(k) =>
      k in s.sockets && s.sockets[k].phase.Replaying? && s.sockets[k].phase.next > s.sockets[k].phase.last
    case Frame(k) =>
      && k in s.sockets
      && (match s.sockets[k].phase
          case Replaying(n, last, _, _) => n <= last
          case Streaming(n, _) => n <= s.log
          case _ => false)
    case Overtake(k) => k in s.sockets && s.sockets[k].phase.Streaming? && s.sockets[k].phase.next <= s.log
    case LateFrame(k, q) => k in s.sockets && s.sockets[k].phase.Streaming? && q in s.sockets[k].phase.late
    case SocketCloses(k, _) => k in s.sockets && !s.sockets[k].phase.Closed?
    case Emit => true
  }

  function Min(a: nat, b: nat): nat { if a <= b then a else b }

  /** ws.close() on a socket of ours. */
  function CloseSocket(sockets: map<nat, Socket>, k: Option<nat>): map<nat, Socket> {
    if k.Some? && k.value in sockets && Alive(sockets[k.value])
    then sockets[k.value := sockets[k.value].(phase := Closing)]
    else sockets
  }

  function SetPhase(s: Session, k: nat, p: Phase): (s': Session)
    requires k in s.sockets
  {
    s.(sockets := s.sockets[k := s.sockets[k].(phase := p)])
  }

  /** Adopt the client's new state, a socket it constructed and a record it created. */
  function Adopt(s: Session, c: Client, built: Option<nat>): (s': Session) {
    s.(client := c,
       sockets := if built.Some? then s.sockets[built.value := Socket(Handshake)] else s.sockets,
       delivered := map r | r in c.records :: if r in s.delivered then s.delivered[r] else [])
  }

  function Receive(s: Session, seqNo: nat): (s': Session)
    requires Valid(s)
    ensures Valid(s')
  {
    var c := s.client;
    if c.cur.None? then s else
      s.(client := OnMessage(c, seqNo),
         delivered := s.delivered[c.cur.value := s.delivered[c.cur.value] + [seqNo]])
  }

  /** The next frame of a connection: its seq and the phase after it. */
  function NextFrame(p: Phase): (nat, Phase)
    requires p.Replaying? || p.Streaming?
  {
    match p
    case Replaying(n, last, at, late) => (n, Replaying(n + 1, last, at, late))
    case Streaming(n, late) => (n, Streaming(n + 1, late))
  }

  /** How the gateway goes on after the (possible) first frame. */
  function Answer(p: Phase, honoured: bool, at: nat, late: set<nat>, log: nat): Phase
    requires p.Upgraded?
  {
    if p.replayFrom > 0 && honoured
    then Replaying(p.replayFrom + 1, Min(log, p.replayFrom + REPLAY_LIMIT), at, late)
    else Streaming(at + 1, late)
  }

  function SubscribeStep(s: Session, typ: string, h: nat, bearer: bool): (s': Session)
    requires Valid(s)
    ensures Valid(s')
  {
    s.(client := Subscribe(s.client, typ, h, bearer))
  }

  function UnsubscribeStep(s: Session, g: nat, typ: string, h: nat): (s': Session)
    requires Valid(s) && g in s.client.registries
    ensures Valid(s')
  {
    s.(client := Unsubscribe(s.client, g, typ, h))
  }

  function CloseStep(s: Session): (s': Session)
    requires Valid(s)
    ensures Valid(s')
  {
    s.(client := Teardown(s.client), sockets := CloseSocket(s.sockets, CurrentSocket(s.client)))
  }

  function TicketStep(s: Session, f: nat, granted: bool): (s': Session)
    requires Valid(s) && f in s.client.flights
    ensures Valid(s')
  {
    var (c, built) := if s.client.flights[f].Opening? then OpenResume(s.client, f, granted)
                      else ReopenResume(s.client, f, granted);
    Adopt(s, c, built)
  }

  function TeardownTickStep(s: Session, t: nat): (s': Session)
    requires Valid(s) && t in s.client.timers && s.client.timers[t].TeardownTimer?
    ensures Valid(s')
  {
    var c := TeardownFires(s.client, t);
    s.(client := c,
       sockets := if c.cur.None? then CloseSocket(s.sockets, CurrentSocket(s.client)) else s.sockets)
  }

  function ReconnectTickStep(s: Session, t: nat, bearer: bool): (s': Session)
    requires Valid(s) && t in s.client.timers && s.client.timers[t].ReconnectTimer?
    ensures Valid(s')
  {
    s.(client := ReconnectFires(s.client, t, bearer))
  }

  function SocketOpensStep(s: Session, k: nat): (s': Session)
    requires Valid(s) && k in s.sockets
    ensures Valid(s')
  {
    var (c, replayFrom) := OnOpen(s.client);
    SetPhase(s.(client := c), k, Upgraded(replayFrom))
  }

  function FrameStep(s: Session, k: nat): (s': Session)
    requires Valid(s) && k in s.sockets && (s.sockets[k].phase.Replaying? || s.sockets[k].phase.Streaming?)
    ensures Valid(s')
  {
    var (seqNo, p) := NextFrame(s.sockets[k].phase);
    Receive(SetPhase(s, k, p), seqNo)
  }

  function OvertakeStep(s: Session, k: nat): (s': Session)
    requires Valid(s) && k in s.sockets && s.sockets[k].phase.Streaming?
    ensures Valid(s')
  {
    var p := s.sockets[k].phase;
    SetPhase(s, k, Streaming(p.next + 1, p.late + {p.next}))
  }

  function LateFrameStep(s: Session, k: nat, seqNo: nat): (s': Session)
    requires Valid(s) && k in s.sockets && s.sockets[k].phase.Streaming?
    ensures Valid(s')
  {
    var p := s.sockets[k].phase;
    Receive(SetPhase(s, k, Streaming(p.next, p.late - {seqNo})), seqNo)
  }

  function AnswerStep(s: Session, k: nat, honoured: bool, at: nat, late: set<nat>): (s': Session)
    requires Valid(s) && k in s.sockets && s.sockets[k].phase.Upgraded?
    ensures Valid(s')
  {
    SetPhase(s, k, Answer(s.sockets[k].phase, honoured, at, late, s.log))
  }

  function ReplayEndsStep(s: Session, k: nat): (s': Session)
    requires Valid(s) && k in s.sockets && s.sockets[k].phase.Replaying?
    ensures Valid(s')
  {
    var p := s.sockets[k].phase;
    SetPhase(s, k, Streaming(p.at + 1, p.late))
  }

  function SocketClosesStep(s: Session, k: nat, code: int): (s': Session)
    requires Valid(s) && k in s.sockets
    ensures Valid(s')
  {
    SetPhase(s.(client := OnClose(s.client, code)), k, Closed)
  }

  function Step(s: Session, a: Action): (s': Session)
    requires Valid(s) && Enabled(s, a)
    ensures Valid(s')
  {
    match a
    case DoSubscribe(typ, h, bearer) => SubscribeStep(s, typ, h, bearer)
    case DoUnsubscribe(g, typ, h) => UnsubscribeStep(s, g, typ, h)
    case DoClose => CloseStep(s)
    case OpenTicket(f, granted) => TicketStep(s, f, granted)
    case ReopenTicket(f, granted) => TicketStep(s, f, granted)
    case TeardownTick(t) => TeardownTickStep(s, t)
    case ReconnectTick(t, bearer) => ReconnectTickStep(s, t, bearer)
    case SocketOpens(k) => SocketOpensStep(s, k)
    case GatewayAnswers(k, honoured, at, late) => AnswerStep(s, k, honoured, at, late)
    case ReplayEnds(k) => ReplayEndsStep(s, k)
    case Frame(k) => FrameStep(s, k)
    case Overtake(k) => OvertakeStep(s, k)
    case LateFrame(k, q) => LateFrameStep(s, k, q)
    case SocketCloses(k, code) => SocketClosesStep(s, k, code)
    case Emit => s.(log := s.log + 1)
  }

  /** A sequence of actions each of which can happen when its turn comes. */
  ghost predicate Feasible(s: Session, run: seq<Action>)
    requires Valid(s)
    decreases |run|
  {
    run == [] || (Enabled(s, run[0]) && Feasible(Step(s, run[0]), run[1..]))
  }

  ghost function After(s: Session, run: seq<Action>): (s': Session)
    requires Valid(s) && Feasible(s, run)
    ensures Valid(s')
    decreases |run|
  {
    if run == [] then s else After(Step(s, run[0]), run[1..])
  }
}
