/** Concrete runs of one session, each ending in a state the invariants exclude. */
module WsWitnesses {
  import opened Wrappers
  import opened WsClient
  import opened WsSession
  import opened WsSafety
  import opened WsOneSocket
  import opened WsRuns

  const REG: map<nat, Registry> := map[1 := map["e" := {0}]]

  function Rec(ws: Option<nat>, status: Status, attempt: nat, reconnect: Option<nat>, teardown: Option<nat>): Record {
    Record(ws, status, attempt, false, reconnect, 0, teardown)
  }

  /** A session after its first subscribe, then connected, dropped and reopening. */
  const ASKED := Session(Client(None, None, Some(1), map[], REG, map[], map[0 := Opening], 2), map[], 0, map[])

  const CONNECTED := Session(
    Client(Some(3), Some(Connecting), Some(1), map[3 := Rec(Some(2), Connecting, 0, None, None)], REG, map[], map[], 4),
    map[2 := Socket(Handshake)], 0, map[3 := []])

  const DROPPED := Session(
    Client(Some(3), Some(Reconnecting), Some(1), map[3 := Rec(None, Reconnecting, 0, Some(4), None)], REG,
           map[4 := ReconnectTimer(3)], map[], 5),
    map[2 := Socket(Closed)], 0, map[3 := []])

  const REOPENING := Session(
    Client(Some(3), Some(Reconnecting), Some(1), map[3 := Rec(None, Reconnecting, 1, None, None)], REG,
           map[], map[5 := Reopening(3)], 6),
    map[2 := Socket(Closed)], 0, map[3 := []])

  lemma {:induction false} Adds()
    ensures AddHandler(map[], "e", 0) == map["e" := {0}]
  {
    var none: set<nat> := {};
    assert none + {0} == {0};
  }

  lemma {:induction false} Ask()
    ensures Step(INIT, DoSubscribe("e", 0, true)) == ASKED
  {
    Adds();
    var c := Subscribe(EMPTY, "e", 0, true);
    assert c.registries == map[1 := map["e" := {0}]];
    assert c.flights == map[0 := Opening];
  }

  lemma {:induction false} Connect()
    ensures Valid(ASKED) && Enabled(ASKED, OpenTicket(0, true)) && Step(ASKED, OpenTicket(0, true)) == CONNECTED
  {
    assert 0 in REG[1]["e"];
    assert Listening(ASKED.client);
    var s := Step(ASKED, OpenTicket(0, true));
    assert s.client.flights == map[];
    assert s.client.records == map[3 := Rec(Some(2), Connecting, 0, None, None)];
    assert s.sockets == map[2 := Socket(Handshake)];
  }

  lemma {:induction false} Drop()
    ensures Valid(CONNECTED) && Enabled(CONNECTED, SocketCloses(2, 1006))
    ensures Step(CONNECTED, SocketCloses(2, 1006)) == DROPPED
  {
    DropClient();
    hide OnClose;
    assert SocketClosesStep(CONNECTED, 2, 1006).sockets == map[2 := Socket(Closed)];
  }

  lemma {:induction false} DropClient()
    ensures WellFormed(CONNECTED.client) && OnClose(CONNECTED.client, 1006) == DROPPED.client
  {
    var c := OnClose(CONNECTED.client, 1006);
    assert c.timers == map[4 := ReconnectTimer(3)];
    assert c.records == map[3 := Rec(None, Reconnecting, 0, Some(4), None)];
  }

  lemma {:induction false} Reopen()
    ensures Valid(DROPPED) && Enabled(DROPPED, ReconnectTick(4, true))
    ensures Step(DROPPED, ReconnectTick(4, true)) == REOPENING
  {
    ReopenClient();
    hide ReconnectFires;
  }

  lemma {:induction false} ReopenClient()
    ensures WellFormed(DROPPED.client) && ReconnectFires(DROPPED.client, 4, true) == REOPENING.client
  {
    var c := DROPPED.client;
    assert c.timers - {4} == map[];
    assert c.flights[5 := Reopening(3)] == map[5 := Reopening(3)];
    assert c.records[3 := Rec(None, Reconnecting, 1, None, None)] == REOPENING.client.records;
  }

  // ---------------------------------------------------------------------------
  // A ticket that arrives between the last unsubscribe and the next subscribe
  // ---------------------------------------------------------------------------

  const LINGERING := Session(
    Client(Some(3), Some(Reconnecting), Some(1), map[3 := Rec(None, Reconnecting, 1, None, Some(6))], map[1 := map[]],
           map[6 := TeardownTimer(3)], map[5 := Reopening(3)], 7),
    map[2 := Socket(Closed)], 0, map[3 := []])

  const ABANDONED := Session(
    Client(Some(3), Some(Reconnecting), Some(1), map[3 := Rec(None, Reconnecting, 1, None, Some(6))], map[1 := map[]],
           map[6 := TeardownTimer(3)], map[], 7),
    map[2 := Socket(Closed)], 0, map[3 := []])

  const WEDGED := Session(
    Client(Some(3), Some(Reconnecting), Some(1), map[3 := Rec(None, Reconnecting, 1, None, None)], REG,
           map[], map[], 7),
    map[2 := Socket(Closed)], 0, map[3 := []])

  lemma {:induction false} Removes()
    ensures RemoveHandler(map["e" := {0}], "e", 0) == map[]
  {
    var one: set<nat> := {0};
    assert one - {0} == {};
  }

  lemma {:induction false} LingerClient()
    ensures WellFormed(REOPENING.client) && Unsubscribe(REOPENING.client, 1, "e", 0) == LINGERING.client
  {
    Removes();
    var c := REOPENING.client;
    var c1 := c.(registries := map[1 := map[]]);
    assert c.registries[1 := map[]] == map[1 := map[]];
    assert !Listening(c1);
    var c2 := ScheduleTeardown(c1);
    assert c2.timers == map[6 := TeardownTimer(3)];
    assert c2.records == map[3 := Rec(None, Reconnecting, 1, None, Some(6))];
  }

  lemma {:induction false} Linger()
    ensures Valid(REOPENING) && Enabled(REOPENING, DoUnsubscribe(1, "e", 0))
    ensures Step(REOPENING, DoUnsubscribe(1, "e", 0)) == LINGERING
  {
    LingerClient();
    hide Unsubscribe;
  }

  lemma {:induction false} Abandon()
    ensures Valid(LINGERING) && Enabled(LINGERING, ReopenTicket(5, true))
    ensures Step(LINGERING, ReopenTicket(5, true)) == ABANDONED
  {
    assert Valid(LINGERING) && !Listening(LINGERING.client);
    assert Step(LINGERING, ReopenTicket(5, true)).client.flights == map[];
  }

  lemma {:induction false} Wedge()
    ensures Valid(ABANDONED) && Step(ABANDONED, DoSubscribe("e", 0, true)) == WEDGED
    ensures Valid(WEDGED) && Wedged(WEDGED) && NothingPending(WEDGED)
  {
    WedgeClient();
    hide Subscribe;
    assert 0 in REG[1]["e"];
  }

  lemma {:induction false} WedgeClient()
    ensures WellFormed(ABANDONED.client) && Subscribe(ABANDONED.client, "e", 0, true) == WEDGED.client
  {
    var c := ABANDONED.client;
    var c1 := CancelTeardown(c);
    assert c1.timers == map[];
    assert c1.records == map[3 := Rec(None, Reconnecting, 1, None, None)];
    Adds();
    assert Register(c1, "e", 0).registries == REG;
  }

  lemma {:induction false} Go(run: seq<Action>, s: Session, a: Action, s': Session)
    requires Feasible(INIT, run) && After(INIT, run) == s && Enabled(s, a) && Step(s, a) == s'
    ensures Feasible(INIT, run + [a]) && After(INIT, run + [a]) == s'
    ensures NoStaleClose(INIT, run + [a]) <==> NoStaleClose(INIT, run) && !StaleClose(s, a)
    ensures NoStaleReopenFailure(INIT, run + [a]) <==> NoStaleReopenFailure(INIT, run) && !StaleReopenFailure(s, a)
  {
    Extend(INIT, run, a);
  }

  lemma {:induction false} ReachReopening() returns (run: seq<Action>)
    ensures Feasible(INIT, run) && After(INIT, run) == REOPENING && HarmlessRun(INIT, run)
  {
    hide Step;
    run := [];
    Ask(); Go(run, INIT, DoSubscribe("e", 0, true), ASKED); run := run + [DoSubscribe("e", 0, true)];
    Connect(); Go(run, ASKED, OpenTicket(0, true), CONNECTED); run := run + [OpenTicket(0, true)];
    Drop(); Go(run, CONNECTED, SocketCloses(2, 1006), DROPPED); run := run + [SocketCloses(2, 1006)];
    Reopen(); Go(run, DROPPED, ReconnectTick(4, true), REOPENING); run := run + [ReconnectTick(4, true)];
  }

  /** A run with no stale callback whose last state is wedged with nothing pending: only leaving frees it. */
  lemma {:induction false} WedgeWitness() returns (run: seq<Action>)
    ensures Feasible(INIT, run) && HarmlessRun(INIT, run)
    ensures Wedged(After(INIT, run)) && NothingPending(After(INIT, run))
  {
    hide Step;
    run := ReachReopening();
    Linger(); Go(run, REOPENING, DoUnsubscribe(1, "e", 0), LINGERING); run := run + [DoUnsubscribe(1, "e", 0)];
    Abandon(); Go(run, LINGERING, ReopenTicket(5, true), ABANDONED); run := run + [ReopenTicket(5, true)];
    Wedge(); Go(run, ABANDONED, DoSubscribe("e", 0, true), WEDGED); run := run + [DoSubscribe("e", 0, true)];
  }

  // ---------------------------------------------------------------------------
  // The close event of a torn-down socket reaches the next record
  // ---------------------------------------------------------------------------

  const REG5: map<nat, Registry> := map[1 := map["e" := {0}], 5 := map["e" := {0}]]

  const OLD := Record(Some(2), Connecting, 0, true, None, 0, None)

  const LEFT := Session(
    Client(None, None, None, map[3 := OLD], REG, map[], map[], 4), map[2 := Socket(Closing)], 0, map[3 := []])

  const BACK := Session(
    Client(None, None, Some(5), map[3 := OLD], REG5, map[], map[4 := Opening], 6),
    map[2 := Socket(Closing)], 0, map[3 := []])

  const REPLACED := Session(
    Client(Some(7), Some(Connecting), Some(5), map[3 := OLD, 7 := Rec(Some(6), Connecting, 0, None, None)], REG5,
           map[], map[], 8),
    map[2 := Socket(Closing), 6 := Socket(Handshake)], 0, map[3 := [], 7 := []])

  lemma {:induction false} Leave()
    ensures Valid(CONNECTED) && Step(CONNECTED, DoClose) == LEFT
  {
    assert Valid(CONNECTED);
    var s := Step(CONNECTED, DoClose);
    assert s.client.records == map[3 := OLD];
    assert s.sockets == map[2 := Socket(Closing)];
  }

  lemma {:induction false} ReturnClient()
    ensures WellFormed(LEFT.client) && Subscribe(LEFT.client, "e", 0, true) == BACK.client
  {
    var c := LEFT.client;
    var c1 := OpenStart(c, true);
    assert c1 == c.(flights := map[4 := Opening], nextId := 5);
    Adds();
    assert Register(c1, "e", 0).registries == REG5;
  }

  lemma {:induction false} Return()
    ensures Valid(LEFT) && Step(LEFT, DoSubscribe("e", 0, true)) == BACK
  {
    ReturnClient();
    hide Subscribe;
  }

  lemma {:induction false} Replace()
    ensures Valid(BACK) && Enabled(BACK, OpenTicket(4, true)) && Step(BACK, OpenTicket(4, true)) == REPLACED
  {
    assert Valid(BACK) && 0 in REG5[5]["e"];
    assert Listening(BACK.client);
    var s := Step(BACK, OpenTicket(4, true));
    assert s.client.flights == map[];
    assert s.client.records == REPLACED.client.records;
    assert s.sockets == REPLACED.sockets;
    assert s.delivered == REPLACED.delivered;
  }

  /** A stale close alone leaves a live socket that no record knows. */
  lemma {:induction false} StaleCloseWitness() returns (run: seq<Action>)
    ensures Feasible(INIT, run) && NoStaleReopenFailure(INIT, run) && !OneLiveSocket(After(INIT, run))
  {
    hide Step;
    run := [];
    Ask(); Go(run, INIT, DoSubscribe("e", 0, true), ASKED); run := run + [DoSubscribe("e", 0, true)];
    Connect(); Go(run, ASKED, OpenTicket(0, true), CONNECTED); run := run + [OpenTicket(0, true)];
    Leave(); Go(run, CONNECTED, DoClose, LEFT); run := run + [DoClose];
    Return(); Go(run, LEFT, DoSubscribe("e", 0, true), BACK); run := run + [DoSubscribe("e", 0, true)];
    Replace(); Go(run, BACK, OpenTicket(4, true), REPLACED); run := run + [OpenTicket(4, true)];
    var last := StaleClose1();
    Go(run, REPLACED, SocketCloses(2, 1005), last); run := run + [SocketCloses(2, 1005)];
  }

  lemma {:induction false} StaleClose1() returns (s: Session)
    ensures Valid(REPLACED) && Enabled(REPLACED, SocketCloses(2, 1005))
    ensures s == Step(REPLACED, SocketCloses(2, 1005)) && Valid(s) && !OneLiveSocket(s)
  {
    assert Valid(REPLACED);
    s := Step(REPLACED, SocketCloses(2, 1005));
    assert s.sockets[6] == Socket(Handshake) && CurrentSocket(s.client) == None;
  }

  // ---------------------------------------------------------------------------
  // The failing ticket of an old reopen drops the next record
  // ---------------------------------------------------------------------------

  const REG7: map<nat, Registry> := map[1 := map["e" := {0}], 7 := map["e" := {0}]]

  const GONE := Record(None, Reconnecting, 1, true, None, 0, None)

  const LEFT2 := Session(
    Client(None, None, None, map[3 := GONE], REG, map[], map[5 := Reopening(3)], 6),
    map[2 := Socket(Closed)], 0, map[3 := []])

  const BACK2 := Session(
    Client(None, None, Some(7), map[3 := GONE], REG7, map[], map[5 := Reopening(3), 6 := Opening], 8),
    map[2 := Socket(Closed)], 0, map[3 := []])

  const REPLACED2 := Session(
    Client(Some(9), Some(Connecting), Some(7), map[3 := GONE, 9 := Rec(Some(8), Connecting, 0, None, None)], REG7,
           map[], map[5 := Reopening(3)], 10),
    map[2 := Socket(Closed), 8 := Socket(Handshake)], 0, map[3 := [], 9 := []])

  lemma {:induction false} Leave2()
    ensures Valid(REOPENING) && Step(REOPENING, DoClose) == LEFT2
  {
    assert Valid(REOPENING);
    assert Step(REOPENING, DoClose).client.records == map[3 := GONE];
  }

  lemma {:induction false} ReturnClient2()
    ensures WellFormed(LEFT2.client) && Subscribe(LEFT2.client, "e", 0, true) == BACK2.client
  {
    var c := LEFT2.client;
    var c1 := OpenStart(c, true);
    assert c1 == c.(flights := map[5 := Reopening(3), 6 := Opening], nextId := 7);
    Adds();
    assert Register(c1, "e", 0).registries == REG7;
  }

  lemma {:induction false} Return2()
    ensures Valid(LEFT2) && Step(LEFT2, DoSubscribe("e", 0, true)) == BACK2
  {
    ReturnClient2();
    hide Subscribe;
  }

  lemma {:induction false} ReplaceClient2()
    ensures WellFormed(BACK2.client) && OpenResume(BACK2.client, 6, true) == (REPLACED2.client, Some(8))
  {
    var c := BACK2.client;
    assert 0 in REG7[7]["e"];
    assert Listening(c);
    assert c.flights - {6} == map[5 := Reopening(3)];
    assert c.records[9 := Rec(Some(8), Connecting, 0, None, None)] == REPLACED2.client.records;
  }

  lemma {:induction false} Replace2()
    ensures Valid(BACK2) && Enabled(BACK2, OpenTicket(6, true)) && Step(BACK2, OpenTicket(6, true)) == REPLACED2
  {
    ReplaceClient2();
    hide OpenResume, Listening;
    var s := TicketStep(BACK2, 6, true);
    assert s.sockets == REPLACED2.sockets;
    assert s.delivered == REPLACED2.delivered;
  }

  lemma {:induction false} StaleFailure1() returns (s: Session)
    ensures Valid(REPLACED2) && Enabled(REPLACED2, ReopenTicket(5, false))
    ensures s == Step(REPLACED2, ReopenTicket(5, false)) && Valid(s) && !OneLiveSocket(s)
  {
    assert Valid(REPLACED2);
    s := Step(REPLACED2, ReopenTicket(5, false));
    assert s.sockets[8] == Socket(Handshake) && CurrentSocket(s.client) == None;
  }

  /** A stale reopen failure alone leaves a live socket that no record knows. */
  lemma {:induction false} StaleReopenFailureWitness() returns (run: seq<Action>)
    ensures Feasible(INIT, run) && NoStaleClose(INIT, run) && !OneLiveSocket(After(INIT, run))
  {
    hide Step;
    run := ReachReopening();
    Leave2(); Go(run, REOPENING, DoClose, LEFT2); run := run + [DoClose];
    Return2(); Go(run, LEFT2, DoSubscribe("e", 0, true), BACK2); run := run + [DoSubscribe("e", 0, true)];
    Replace2(); Go(run, BACK2, OpenTicket(6, true), REPLACED2); run := run + [OpenTicket(6, true)];
    var last := StaleFailure1();
    Go(run, REPLACED2, ReopenTicket(5, false), last); run := run + [ReopenTicket(5, false)];
  }
}
