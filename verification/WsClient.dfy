/**
 One session of the browser's WebSocket subscription manager
 (frontend/src/lib/ws.svelte.ts), as functions on values.

 JavaScript objects that a closure can hold on to (connection records, handler
 registries, timers, ticket requests in flight) are named by numbers drawn from
 one counter, so object identity is equality of numbers. Each function is one
 uninterrupted run of the event loop: an `await` ends one function and the
 continuation is another.
 */
module WsClient {
  import opened Wrappers

  /** Handlers of one session, by event type. */
  type Registry = map<string, set<nat>>

  datatype Status = Connecting | Open | Reconnecting

  datatype Record = Record(
    ws: Option<nat>,
    status: Status,
    attempt: nat,
    closedByUs: bool,
    reconnectTimer: Option<nat>,
    lastSeenSeq: nat,
    teardownTimer: Option<nat>)

  datatype Timer = TeardownTimer(rec: nat) | ReconnectTimer(rec: nat)

  /** A ticket request that has not been answered yet. */
  datatype Flight = Opening | Reopening(rec: nat)

  datatype Client = Client(
    cur: Option<nat>,
    status: Option<Status>,
    registry: Option<nat>,
    records: map<nat, Record>,
    registries: map<nat, Registry>,
    timers: map<nat, Timer>,
    flights: map<nat, Flight>,
    nextId: nat)

  const EMPTY: Client := Client(None, None, None, map[], map[], map[], map[], 0)

  ghost predicate WellFormed(c: Client) {
    && (c.cur.Some? ==> c.cur.value in c.records)
    && (c.registry.Some? ==> c.registry.value in c.registries)
    && (forall r | r in c.records :: r < c.nextId)
    && (forall g | g in c.registries :: g < c.nextId)
    && (forall t | t in c.timers :: t < c.nextId && c.timers[t].rec in c.records)
    && (forall f | f in c.flights :: f < c.nextId && (c.flights[f].Reopening? ==> c.flights[f].rec in c.records))
  }

  /** handlerCount(sessionId) > 0 */
  predicate HasHandlers(reg: Registry) {
    exists t :: t in reg && reg[t] != {}
  }

  predicate Listening(c: Client)
    requires WellFormed(c)
  {
    c.registry.Some? && HasHandlers(c.registries[c.registry.value])
  }

  /** Close codes of section 7.4 of RFC 6455 that end the reconnect loop. */
  predicate ShouldReconnect(code: int) {
    code !in {1000, 1003, 1007, 1008} && !(4000 <= code < 5000)
  }

  function CurrentSocket(c: Client): (k: Option<nat>)
    requires WellFormed(c)
  {
    if c.cur.Some? then c.records[c.cur.value].ws else None
  }

  function Clear(timers: map<nat, Timer>, t: Option<nat>): map<nat, Timer> {
    if t.Some? then timers - {t.value} else timers
  }

  function CancelTeardown(c: Client): (c': Client)
    requires WellFormed(c)
    ensures WellFormed(c')
  {
    if c.cur.None? then c else
      var r := c.cur.value;
      c.(timers := Clear(c.timers, c.records[r].teardownTimer),
         records := c.records[r := c.records[r].(teardownTimer := None)])
  }

  /** The record is dropped; the caller closes CurrentSocket(c). */
  function Teardown(c: Client): (c': Client)
    requires WellFormed(c)
    ensures WellFormed(c') && c'.cur.None? && !Listening(c')
  {
    if c.cur.None? then c.(registry := None, status := None) else
      var r := c.cur.value;
      var rec := c.records[r];
      c.(cur := None, registry := None, status := None,
         timers := Clear(Clear(c.timers, rec.teardownTimer), rec.reconnectTimer),
         records := c.records[r := rec.(closedByUs := true, teardownTimer := None, reconnectTimer := None)])
  }

  function ScheduleTeardown(c: Client): (c': Client)
    requires WellFormed(c)
    ensures WellFormed(c')
  {
    if c.cur.None? then c.(registry := None, status := None) else
      var r := c.cur.value;
      if c.records[r].teardownTimer.Some? then c else
        c.(timers := c.timers[c.nextId := TeardownTimer(r)],
           records := c.records[r := c.records[r].(teardownTimer := Some(c.nextId))],
           nextId := c.nextId + 1)
  }

  /** open() up to its await. */
  function OpenStart(c: Client, bearer: bool): (c': Client)
    requires WellFormed(c)
    ensures WellFormed(c')
  {
    if c.cur.Some? then c
    else if !bearer then c.(status := None)
    else c.(flights := c.flights[c.nextId := Opening], nextId := c.nextId + 1)
  }

  function AddHandler(reg: Registry, typ: string, h: nat): Registry {
    reg[typ := (if typ in reg then reg[typ] else {}) + {h}]
  }

  function RemoveHandler(reg: Registry, typ: string, h: nat): Registry {
    if typ !in reg then reg
    else if reg[typ] - {h} == {} then reg - {typ}
    else reg[typ := reg[typ] - {h}]
  }

  function Register(c: Client, typ: string, h: nat): (c': Client)
    requires WellFormed(c)
    ensures WellFormed(c') && Listening(c')
  {
    var c1 := if c.registry.Some? then c else
      c.(registry := Some(c.nextId), registries := c.registries[c.nextId := map[]], nextId := c.nextId + 1);
    var g := c1.registry.value;
    var reg := AddHandler(c1.registries[g], typ, h);
    assert typ in reg && reg[typ] != {} by { assert h in reg[typ]; }
    c1.(registries := c1.registries[g := reg])
  }

  function Subscribe(c: Client, typ: string, h: nat, bearer: bool): (c': Client)
    requires WellFormed(c)
    ensures WellFormed(c') && Listening(c')
  {
    Register(OpenStart(CancelTeardown(c), bearer), typ, h)
  }

  /** The closure subscribe() returned; `g` is the registry it captured. */
  function Unsubscribe(c: Client, g: nat, typ: string, h: nat): (c': Client)
    requires WellFormed(c) && g in c.registries
    ensures WellFormed(c')
  {
    var c1 := c.(registries := c.registries[g := RemoveHandler(c.registries[g], typ, h)]);
    if Listening(c1) then c1 else ScheduleTeardown(c1)
  }

  /** open() after its await. The new socket, if any, is `nextId`. */
  function OpenResume(c: Client, f: nat, ticket: bool): (r: (Client, Option<nat>))
    requires WellFormed(c)
    ensures WellFormed(r.0)
    ensures r.1.Some? ==> Listening(c) && c.cur.None?
  {
    var c1 := c.(flights := c.flights - {f});
    if !ticket || c.cur.Some? || !Listening(c) then (c1, None) else
      var rec := Record(Some(c.nextId), Connecting, 0, false, None, 0, None);
      (c1.(cur := Some(c.nextId + 1), status := Some(Connecting),
           records := c.records[c.nextId + 1 := rec], nextId := c.nextId + 2),
       Some(c.nextId))
  }

  function DropRecord(c: Client): (c': Client)
    requires WellFormed(c)
    ensures WellFormed(c')
  {
    c.(cur := None, status := None)
  }

  /** reopen() up to its await. */
  function ReopenStart(c: Client, bearer: bool): (c': Client)
    requires WellFormed(c)
    ensures WellFormed(c')
  {
    if c.cur.None? then c
    else if !bearer then DropRecord(c)
    else c.(flights := c.flights[c.nextId := Reopening(c.cur.value)], nextId := c.nextId + 1)
  }

  /** reopen() after its await. */
  function ReopenResume(c: Client, f: nat, ticket: bool): (r: (Client, Option<nat>))
    requires WellFormed(c) && f in c.flights && c.flights[f].Reopening?
    ensures WellFormed(r.0)
    ensures r.1.Some? ==> Listening(c) && c.cur == Some(c.flights[f].rec)
  {
    var rec := c.flights[f].rec;
    var c1 := c.(flights := c.flights - {f});
    if !ticket then (DropRecord(c1), None)
    else if c.cur != Some(rec) || !Listening(c) then (c1, None)
    else (c1.(records := c.records[rec := c.records[rec].(ws := Some(c.nextId))], nextId := c.nextId + 1),
          Some(c.nextId))
  }

  function TeardownFires(c: Client, t: nat): (c': Client)
    requires WellFormed(c) && t in c.timers && c.timers[t].TeardownTimer?
    ensures WellFormed(c')
  {
    var r := c.timers[t].rec;
    var c1 := c.(timers := c.timers - {t}, records := c.records[r := c.records[r].(teardownTimer := None)]);
    if Listening(c1) then c1 else Teardown(c1)
  }

  function ReconnectFires(c: Client, t: nat, bearer: bool): (c': Client)
    requires WellFormed(c) && t in c.timers && c.timers[t].ReconnectTimer?
    ensures WellFormed(c')
  {
    var r := c.timers[t].rec;
    var rec := c.records[r];
    ReopenStart(c.(timers := c.timers - {t},
                   records := c.records[r := rec.(reconnectTimer := None, attempt := rec.attempt + 1)]),
                bearer)
  }

  /** The 'open' listener; the second part is the replay_from it sends, 0 for none. */
  function OnOpen(c: Client): (r: (Client, nat))
    requires WellFormed(c)
    ensures WellFormed(r.0)
  {
    if c.cur.None? then (c, 0) else
      var rec := c.records[c.cur.value];
      (c.(status := Some(Open), records := c.records[c.cur.value := rec.(status := Open, attempt := 0)]),
       rec.lastSeenSeq)
  }

  /** The 'message' listener's cursor update, for an envelope with a finite seq. */
  function OnMessage(c: Client, seqNo: nat): (c': Client)
    requires WellFormed(c)
    ensures WellFormed(c')
  {
    if c.cur.None? then c else
      var rec := c.records[c.cur.value];
      if seqNo <= rec.lastSeenSeq then c
      else c.(records := c.records[c.cur.value := rec.(lastSeenSeq := seqNo)])
  }

  /** The 'close' listener. */
  function OnClose(c: Client, code: int): (c': Client)
    requires WellFormed(c)
    ensures WellFormed(c')
  {
    if c.cur.None? then c else
      var r := c.cur.value;
      var rec := c.records[r];
      if rec.closedByUs || !ShouldReconnect(code) then
        DropRecord(c.(records := c.records[r := rec.(ws := None)]))
      else
        c.(status := Some(Reconnecting),
           timers := c.timers[c.nextId := ReconnectTimer(r)],
           records := c.records[r := rec.(ws := None, status := Reconnecting, reconnectTimer := Some(c.nextId))],
           nextId := c.nextId + 1)
  }
}
