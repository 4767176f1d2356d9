/**
 The module-level maps of frontend/src/lib/ws.svelte.ts and the code that mutates
 them, for any number of sessions. Each method is proved to act on its own session
 as WsClient says and to leave every other session alone.
 */
module SubscriptionManager {
  import opened Wrappers
  import WsClient
  import opened WsSafety

  type Client = WsClient.Client
  type Record = WsClient.Record
  type Status = WsClient.Status

  /** The objects that callbacks of one session can hold. */
  datatype Objects = Objects(
    records: map<nat, Record>,
    registries: map<nat, WsClient.Registry>,
    timers: map<nat, WsClient.Timer>,
    flights: map<nat, WsClient.Flight>,
    nextId: nat)

  function Lookup<T>(m: map<string, T>, sid: string): Option<T> {
    if sid in m then Some(m[sid]) else None
  }

  class Manager {
    var records: map<string, nat>
    var handlers: map<string, nat>
    var statuses: map<string, Status>
    var objects: map<string, Objects>

    function Heap(sid: string): Objects
      reads this
    {
      if sid in objects then objects[sid] else Objects(map[], map[], map[], map[], 0)
    }

    /** The part of the state that belongs to one session. */
    function View(sid: string): Client
      reads this
    {
      var h := Heap(sid);
      WsClient.Client(Lookup(records, sid), Lookup(statuses, sid), Lookup(handlers, sid),
                      h.records, h.registries, h.timers, h.flights, h.nextId)
    }

    ghost predicate Valid()
      reads this
    {
      forall sid: string :: WsClient.WellFormed(View(sid)) && Settled(View(sid))
    }

    twostate predicate OnlyTouches(sid: string)
      reads this
    {
      forall t: string | t != sid :: View(t) == old(View(t))
    }

    /** A settled session beside untouched ones leaves every session settled. */
    twostate lemma Keeps(sid: string)
      requires old(Valid()) && OnlyTouches(sid) && WsClient.WellFormed(View(sid)) && Settled(View(sid))
      ensures Valid()
    {
    }

    constructor ()
      ensures Valid()
      ensures forall sid: string :: View(sid) == WsClient.EMPTY
    {
      records, handlers, statuses, objects := map[], map[], map[], map[];
    }

    method SetStatus(sid: string, s: Option<Status>)
      modifies this`statuses
      ensures View(sid) == old(View(sid)).(status := s) && OnlyTouches(sid)
    {
      if s.None? {
        statuses := statuses - {sid};
      } else {
        statuses := statuses[sid := s.value];
      }
    }

    /** Writes a field of a record object. */
    method SetRecord(sid: string, r: nat, rec: Record)
      modifies this`objects
      ensures View(sid) == old(View(sid)).(records := old(View(sid)).records[r := rec]) && OnlyTouches(sid)
    {
      var h := Heap(sid);
      objects := objects[sid := h.(records := h.records[r := rec])];
    }

    method SetTimeout(sid: string, timer: WsClient.Timer) returns (t: nat)
      modifies this`objects
      ensures t == old(View(sid)).nextId
      ensures View(sid) == old(View(sid)).(timers := old(View(sid)).timers[t := timer], nextId := t + 1)
      ensures OnlyTouches(sid)
    {
      var h := Heap(sid);
      t := h.nextId;
      objects := objects[sid := h.(timers := h.timers[t := timer], nextId := t + 1)];
    }

    method ClearTimeout(sid: string, t: Option<nat>)
      modifies this`objects
      ensures View(sid) == old(View(sid)).(timers := WsClient.Clear(old(View(sid)).timers, t)) && OnlyTouches(sid)
    {
      var h := Heap(sid);
      if t.Some? {
        objects := objects[sid := h.(timers := h.timers - {t.value})];
      }
    }

    /** handlerCount(): the number of handlers over all types. */
    method HandlerCount(sid: string) returns (n: nat)
      requires WsClient.WellFormed(View(sid))
      ensures n > 0 <==> WsClient.Listening(View(sid))
    {
      n := 0;
      if sid !in handlers {
        return;
      }
      var reg := Heap(sid).registries[handlers[sid]];
      var types := reg.Keys;
      while types != {}
        invariant types <= reg.Keys
        invariant n > 0 <==> exists t :: t in reg.Keys - types && reg[t] != {}
        decreases |types|
      {
        var t :| t in types;
        ghost var before := types;
        n := n + |reg[t]|;
        types := types - {t};
        assert forall u :: u in reg.Keys - types <==> u in reg.Keys - before || u == t;
      }
    }

    method CancelTeardown(sid: string)
      requires WsClient.WellFormed(View(sid))
      modifies this
      ensures View(sid) == WsClient.CancelTeardown(old(View(sid))) && OnlyTouches(sid)
    {
      if sid in records {
        var r := records[sid];
        var rec := Heap(sid).records[r];
        ClearTimeout(sid, rec.teardownTimer);
        SetRecord(sid, r, rec.(teardownTimer := None));
      }
    }

    /** The record's part of teardown: flags, timers, the records entry. */
    method RetireRecord(sid: string) returns (closing: Option<nat>)
      requires WsClient.WellFormed(View(sid)) && sid in records
      modifies this
      ensures OnlyTouches(sid)
      ensures var c := old(View(sid));
              var r := c.cur.value;
              var rec := c.records[r];
              && View(sid) == c.(cur := None,
                                 timers := WsClient.Clear(WsClient.Clear(c.timers, rec.teardownTimer), rec.reconnectTimer),
                                 records := c.records[r := rec.(closedByUs := true, teardownTimer := None, reconnectTimer := None)])
              && closing == rec.ws
    {
      var r := records[sid];
      var rec := Heap(sid).records[r];
      ClearTimeout(sid, rec.teardownTimer);
      ClearTimeout(sid, rec.reconnectTimer);
      SetRecord(sid, r, rec.(closedByUs := true, teardownTimer := None, reconnectTimer := None));
      closing := rec.ws;
      records := records - {sid};
    }

    /** Returns the socket to close. */
    method Teardown(sid: string) returns (closing: Option<nat>)
      requires WsClient.WellFormed(View(sid))
      modifies this
      ensures View(sid) == WsClient.Teardown(old(View(sid))) && OnlyTouches(sid)
      ensures closing == WsClient.CurrentSocket(old(View(sid)))
    {
      closing := None;
      if sid in records {
        closing := RetireRecord(sid);
      }
      handlers := handlers - {sid};
      SetStatus(sid, None);
    }

    method ScheduleTeardown(sid: string)
      requires WsClient.WellFormed(View(sid))
      modifies this
      ensures View(sid) == WsClient.ScheduleTeardown(old(View(sid))) && OnlyTouches(sid)
    {
      if sid !in records {
        handlers := handlers - {sid};
        SetStatus(sid, None);
        return;
      }
      var r := records[sid];
      if Heap(sid).records[r].teardownTimer.None? {
        var t := SetTimeout(sid, WsClient.TeardownTimer(r));
        SetRecord(sid, r, Heap(sid).records[r].(teardownTimer := Some(t)));
      }
    }

    method AskTicket(sid: string, f: WsClient.Flight)
      modifies this`objects
      ensures var c := old(View(sid));
              View(sid) == c.(flights := c.flights[c.nextId := f], nextId := c.nextId + 1)
      ensures OnlyTouches(sid)
    {
      var h := Heap(sid);
      objects := objects[sid := h.(flights := h.flights[h.nextId := f], nextId := h.nextId + 1)];
    }

    method TicketAnswered(sid: string, f: nat)
      modifies this`objects
      ensures View(sid) == old(View(sid)).(flights := old(View(sid)).flights - {f}) && OnlyTouches(sid)
    {
      var h := Heap(sid);
      objects := objects[sid := h.(flights := h.flights - {f})];
    }

    /** records.delete(sessionId) with its status. */
    method DropRecord(sid: string)
      modifies this
      ensures View(sid) == old(View(sid)).(cur := None, status := None) && OnlyTouches(sid)
    {
      records := records - {sid};
      SetStatus(sid, None);
    }

    /** A new socket object, not yet opened. */
    method NewSocket(sid: string) returns (ws: nat)
      modifies this`objects
      ensures ws == old(View(sid)).nextId
      ensures View(sid) == old(View(sid)).(nextId := ws + 1) && OnlyTouches(sid)
    {
      var h := Heap(sid);
      ws := h.nextId;
      objects := objects[sid := h.(nextId := ws + 1)];
    }

    /** records.set(sessionId, rec) with a fresh record. */
    method CreateRecord(sid: string, rec: Record)
      modifies this
      ensures var c := old(View(sid));
              View(sid) == c.(cur := Some(c.nextId), status := Some(rec.status),
                              records := c.records[c.nextId := rec], nextId := c.nextId + 1)
      ensures OnlyTouches(sid)
    {
      var h := Heap(sid);
      objects := objects[sid := h.(records := h.records[h.nextId := rec], nextId := h.nextId + 1)];
      records := records[sid := h.nextId];
      SetStatus(sid, Some(rec.status));
    }

    /** open() up to its await. */
    method OpenStart(sid: string, bearer: bool)
      requires WsClient.WellFormed(View(sid))
      modifies this
      ensures View(sid) == WsClient.OpenStart(old(View(sid)), bearer) && OnlyTouches(sid)
    {
      if sid in records {
        return;
      }
      if bearer {
        AskTicket(sid, WsClient.Opening);
      } else {
        SetStatus(sid, None);
      }
    }

    /** reopen() up to its await. */
    method ReopenStart(sid: string, bearer: bool)
      requires WsClient.WellFormed(View(sid))
      modifies this
      ensures View(sid) == WsClient.ReopenStart(old(View(sid)), bearer) && OnlyTouches(sid)
    {
      if sid !in records {
        return;
      }
      if bearer {
        AskTicket(sid, WsClient.Reopening(records[sid]));
      } else {
        DropRecord(sid);
      }
    }

    method SetRegistry(sid: string, g: nat, reg: WsClient.Registry)
      modifies this`objects
      ensures View(sid) == old(View(sid)).(registries := old(View(sid)).registries[g := reg]) && OnlyTouches(sid)
    {
      var h := Heap(sid);
      objects := objects[sid := h.(registries := h.registries[g := reg])];
    }

    method NewRegistry(sid: string)
      modifies this
      ensures var c := old(View(sid));
              View(sid) == c.(registry := Some(c.nextId), registries := c.registries[c.nextId := map[]],
                              nextId := c.nextId + 1)
      ensures OnlyTouches(sid)
    {
      var h := Heap(sid);
      handlers := handlers[sid := h.nextId];
      objects := objects[sid := h.(registries := h.registries[h.nextId := map[]], nextId := h.nextId + 1)];
    }

    method Register(sid: string, typ: string, h: nat) returns (g: nat)
      requires WsClient.WellFormed(View(sid))
      modifies this
      ensures View(sid) == WsClient.Register(old(View(sid)), typ, h) && OnlyTouches(sid)
      ensures View(sid).registry == Some(g)
    {
      if sid !in handlers {
        NewRegistry(sid);
      }
      g := handlers[sid];
      SetRegistry(sid, g, WsClient.AddHandler(Heap(sid).registries[g], typ, h));
    }

    /** subscribe(); the registry it returns is what its unsubscribe closure captures. */
    method Subscribe(sid: string, typ: string, h: nat, bearer: bool) returns (g: nat)
      requires Valid()
      modifies this
      ensures Valid() && OnlyTouches(sid)
      ensures View(sid) == WsClient.Subscribe(old(View(sid)), typ, h, bearer) && View(sid).registry == Some(g)
    {
      hide Settled;
      ghost var c := View(sid);
      CancelTeardown(sid);
      OpenStart(sid, bearer);
      g := Register(sid, typ, h);
      SubscribeSettled(c, typ, h, bearer);
      Keeps(sid);
    }

    method Unsubscribe(sid: string, g: nat, typ: string, h: nat)
      requires Valid() && g in View(sid).registries
      modifies this
      ensures Valid() && OnlyTouches(sid)
      ensures View(sid) == WsClient.Unsubscribe(old(View(sid)), g, typ, h)
    {
      hide Settled;
      ghost var c := View(sid);
      SetRegistry(sid, g, WsClient.RemoveHandler(Heap(sid).registries[g], typ, h));
      var n := HandlerCount(sid);
      if n == 0 {
        ScheduleTeardown(sid);
      }
      UnsubscribeSettled(c, g, typ, h);
      Keeps(sid);
    }

    method Close(sid: string) returns (closing: Option<nat>)
      requires Valid()
      modifies this
      ensures Valid() && OnlyTouches(sid)
      ensures View(sid) == WsClient.Teardown(old(View(sid))) && closing == WsClient.CurrentSocket(old(View(sid)))
    {
      hide Settled;
      ghost var c := View(sid);
      closing := Teardown(sid);
      TeardownSettled(c);
    }

    /** open() once its guards have passed: the socket and its record. */
    method BuildRecord(sid: string) returns (ws: nat)
      modifies this
      ensures OnlyTouches(sid)
      ensures var c := old(View(sid));
              && ws == c.nextId
              && View(sid) == c.(cur := Some(c.nextId + 1), status := Some(WsClient.Connecting),
                                 records := c.records[c.nextId + 1 :=
                                                      WsClient.Record(Some(ws), WsClient.Connecting, 0, false, None, 0, None)],
                                 nextId := c.nextId + 2)
    {
      ws := NewSocket(sid);
      CreateRecord(sid, WsClient.Record(Some(ws), WsClient.Connecting, 0, false, None, 0, None));
    }

    method OpenResume(sid: string, f: nat, ticket: bool) returns (built: Option<nat>)
      requires Valid() && f in View(sid).flights && View(sid).flights[f].Opening?
      modifies this
      ensures Valid() && OnlyTouches(sid)
      ensures (View(sid), built) == WsClient.OpenResume(old(View(sid)), f, ticket)
    {
      hide Settled;
      ghost var c := View(sid);
      ResumeSettled(c, f, ticket);
      built := None;
      TicketAnswered(sid, f);
      if ticket && sid !in records {
        var n := HandlerCount(sid);
        assert n > 0 <==> WsClient.Listening(c);
        if n > 0 {
          var ws := BuildRecord(sid);
          built := Some(ws);
        }
      }
      assert View(sid) == WsClient.OpenResume(c, f, ticket).0;
      Keeps(sid);
    }

    method ReopenResume(sid: string, f: nat, ticket: bool) returns (built: Option<nat>)
      requires Valid() && f in View(sid).flights && View(sid).flights[f].Reopening?
      modifies this
      ensures Valid() && OnlyTouches(sid)
      ensures (View(sid), built) == WsClient.ReopenResume(old(View(sid)), f, ticket)
    {
      hide Settled;
      ghost var c := View(sid);
      ResumeSettled(c, f, ticket);
      built := None;
      var r := Heap(sid).flights[f].rec;
      TicketAnswered(sid, f);
      if !ticket {
        DropRecord(sid);
        Keeps(sid);
        return;
      }
      var n := HandlerCount(sid);
      if sid !in records || records[sid] != r || n == 0 {
        Keeps(sid);
        return;
      }
      var ws := NewSocket(sid);
      built := Some(ws);
      SetRecord(sid, r, Heap(sid).records[r].(ws := built));
      Keeps(sid);
    }

    method TeardownFires(sid: string, t: nat) returns (closing: Option<nat>)
      requires Valid() && t in View(sid).timers && View(sid).timers[t].TeardownTimer?
      modifies this
      ensures Valid() && OnlyTouches(sid)
      ensures View(sid) == WsClient.TeardownFires(old(View(sid)), t)
      ensures closing == if WsClient.Listening(old(View(sid))) then None else WsClient.CurrentSocket(old(View(sid)))
    {
      hide Settled;
      ghost var c := View(sid);
      TeardownFiresSettled(c, t);
      closing := None;
      var r := Heap(sid).timers[t].rec;
      ClearTimeout(sid, Some(t));
      SetRecord(sid, r, Heap(sid).records[r].(teardownTimer := None));
      var n := HandlerCount(sid);
      if n == 0 {
        closing := Teardown(sid);
      }
    }

    method ReconnectFires(sid: string, t: nat, bearer: bool)
      requires Valid() && t in View(sid).timers && View(sid).timers[t].ReconnectTimer?
      modifies this
      ensures Valid() && OnlyTouches(sid)
      ensures View(sid) == WsClient.ReconnectFires(old(View(sid)), t, bearer)
    {
      hide Settled;
      ghost var c := View(sid);
      ReconnectFiresSettled(c, t, bearer);
      var r := Heap(sid).timers[t].rec;
      ClearTimeout(sid, Some(t));
      var rec := Heap(sid).records[r];
      SetRecord(sid, r, rec.(reconnectTimer := None, attempt := rec.attempt + 1));
      ReopenStart(sid, bearer);
      Keeps(sid);
    }

    /** The 'open' listener; returns the replay_from to send, 0 for none. */
    method OnOpen(sid: string) returns (replayFrom: nat)
      requires Valid()
      modifies this
      ensures Valid() && OnlyTouches(sid)
      ensures (View(sid), replayFrom) == WsClient.OnOpen(old(View(sid)))
    {
      hide Settled;
      ghost var c := View(sid);
      OnOpenSettled(c);
      replayFrom := 0;
      if sid in records {
        var rec := Heap(sid).records[records[sid]];
        SetRecord(sid, records[sid], rec.(status := WsClient.Open, attempt := 0));
        SetStatus(sid, Some(WsClient.Open));
        if rec.lastSeenSeq > 0 {
          replayFrom := rec.lastSeenSeq;
        }
      }
    }

    /** The 'message' listener; returns the handlers it calls. An envelope may lack a usable seq. */
    method OnMessage(sid: string, seqNo: Option<nat>, typ: string) returns (called: set<nat>)
      requires Valid()
      modifies this
      ensures Valid() && OnlyTouches(sid)
      ensures View(sid) == if seqNo.Some? then WsClient.OnMessage(old(View(sid)), seqNo.value) else old(View(sid))
      ensures var c := old(View(sid));
              forall h :: h in called <==>
                c.registry.Some? && typ in c.registries[c.registry.value] && h in c.registries[c.registry.value][typ]
    {
      hide Settled;
      ghost var c := View(sid);
      if seqNo.Some? {
        OnMessageSettled(c, seqNo.value);
      }
      if sid in records && seqNo.Some? {
        var rec := Heap(sid).records[records[sid]];
        if seqNo.value > rec.lastSeenSeq {
          SetRecord(sid, records[sid], rec.(lastSeenSeq := seqNo.value));
        }
      }
      called := {};
      if sid in handlers {
        var reg := Heap(sid).registries[handlers[sid]];
        if typ in reg {
          called := reg[typ];
        }
      }
    }

    /** The end of the 'close' listener: status, timer, record. */
    method StartReconnect(sid: string, r: nat, rec: Record)
      modifies this
      ensures OnlyTouches(sid)
      ensures var c := old(View(sid));
              View(sid) == c.(status := Some(WsClient.Reconnecting),
                              timers := c.timers[c.nextId := WsClient.ReconnectTimer(r)],
                              records := c.records[r := rec.(status := WsClient.Reconnecting, reconnectTimer := Some(c.nextId))],
                              nextId := c.nextId + 1)
    {
      SetStatus(sid, Some(WsClient.Reconnecting));
      var t := SetTimeout(sid, WsClient.ReconnectTimer(r));
      SetRecord(sid, r, rec.(status := WsClient.Reconnecting, reconnectTimer := Some(t)));
    }

    method OnClose(sid: string, code: int)
      requires Valid()
      modifies this
      ensures Valid() && OnlyTouches(sid)
      ensures View(sid) == WsClient.OnClose(old(View(sid)), code)
    {
      hide Settled, WsClient.ShouldReconnect;
      ghost var c := View(sid);
      OnCloseSettled(c, code);
      if sid !in records {
        return;
      }
      var r := records[sid];
      var rec := Heap(sid).records[r];
      SetRecord(sid, r, rec.(ws := None));
      if rec.closedByUs || !WsClient.ShouldReconnect(code) {
        DropRecord(sid);
        Keeps(sid);
        return;
      }
      StartReconnect(sid, r, rec.(ws := None));
      assert View(sid).records == WsClient.OnClose(c, code).records;
      Keeps(sid);
    }

    /** wsStatus.for(): it names exactly the sessions that have a record. */
    method StatusFor(sid: string) returns (s: Option<Status>)
      requires Valid()
      ensures View(sid).cur.Some? ==> View(sid).cur.value in View(sid).records
      ensures s.Some? <==> sid in records
      ensures s.Some? ==> s.value == Heap(sid).records[records[sid]].status
    {
      assert Settled(View(sid));
      s := Lookup(statuses, sid);
    }
  }
}
