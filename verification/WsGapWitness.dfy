/** Two runs with a gap: a replay frame the gateway does not honour, and an event the fan-out drops. */
module WsGapWitness {
  import opened Wrappers
  import opened WsClient
  import opened WsSession
  import opened WsOneSocket
  import opened WsRuns
  import opened WsWitnesses
  import opened WsResume

  /** A session with record 3, the given record, timers and tickets. */
  function With(rec: Record, timers: map<nat, Timer>, flights: map<nat, Flight>, nextId: nat): Client {
    Client(Some(3), Some(rec.status), Some(1), map[3 := rec], REG, timers, flights, nextId)
  }

  const FRESH := Record(Some(2), Open, 0, false, None, 0, None)
  const SEEN := Record(Some(2), Open, 0, false, None, 1, None)
  const LOST := Record(None, Reconnecting, 0, false, Some(4), 1, None)
  const WAITING := Record(None, Reconnecting, 1, false, None, 1, None)
  const REJOINED := Record(Some(6), Reconnecting, 1, false, None, 1, None)
  const RESUMED := Record(Some(6), Open, 0, false, None, 1, None)
  const AHEAD := Record(Some(6), Open, 0, false, None, 3, None)

  const G1 := Session(With(FRESH, map[], map[], 4), map[2 := Socket(Upgraded(0))], 0, map[3 := []])
  const G2 := Session(With(FRESH, map[], map[], 4), map[2 := Socket(Streaming(1, {}))], 0, map[3 := []])
  const G3 := G2.(log := 1)
  const G4 := Session(With(SEEN, map[], map[], 4), map[2 := Socket(Streaming(2, {}))], 1, map[3 := [1]])
  const G5 := Session(With(LOST, map[4 := ReconnectTimer(3)], map[], 5), map[2 := Socket(Closed)], 1, map[3 := [1]])
  const G6 := G5.(log := 2)
  const G7 := Session(With(WAITING, map[], map[5 := Reopening(3)], 6), map[2 := Socket(Closed)], 2, map[3 := [1]])
  const G8 := Session(With(REJOINED, map[], map[], 7), map[2 := Socket(Closed), 6 := Socket(Handshake)], 2, map[3 := [1]])
  const G9 := Session(With(RESUMED, map[], map[], 7), map[2 := Socket(Closed), 6 := Socket(Upgraded(1))], 2, map[3 := [1]])
  const G10 := G9.(sockets := map[2 := Socket(Closed), 6 := Socket(Streaming(3, {}))])
  const G11 := G10.(log := 3)
  const G12 := Session(With(AHEAD, map[], map[], 7), map[2 := Socket(Closed), 6 := Socket(Streaming(4, {}))], 3, map[3 := [1, 3]])

  /** The first connection goes live. */
  lemma {:induction false} GoLive()
    ensures Valid(CONNECTED) && Enabled(CONNECTED, SocketOpens(2)) && Step(CONNECTED, SocketOpens(2)) == G1
    ensures Valid(G1) && Enabled(G1, GatewayAnswers(2, false, 0, {}))
    ensures Step(G1, GatewayAnswers(2, false, 0, {})) == G2 && Valid(G2)
  {
    assert CONNECTED.client.records[3 := FRESH] == map[3 := FRESH];
    assert CONNECTED.sockets[2 := Socket(Upgraded(0))] == G1.sockets;
    assert G1.sockets[2 := Socket(Streaming(1, {}))] == G2.sockets;
  }

  /** It delivers event 1. */
  lemma {:induction false} FirstFrame()
    requires Valid(G3)
    ensures Enabled(G3, Frame(2)) && Step(G3, Frame(2)) == G4
  {
    assert G3.sockets[2 := Socket(Streaming(2, {}))] == G4.sockets;
    assert G3.client.records[3 := SEEN] == map[3 := SEEN];
    var none: seq<nat> := [];
    assert none + [1] == [1];
    assert G3.delivered[3 := none + [1]] == map[3 := [1]];
  }

  /** It drops; event 2 happens. */
  lemma {:induction false} Drops()
    requires Valid(G4)
    ensures Enabled(G4, SocketCloses(2, 1006)) && Step(G4, SocketCloses(2, 1006)) == G5
  {
    assert G4.sockets[2 := Socket(Closed)] == G5.sockets;
    assert G4.client.records[3 := LOST] == map[3 := LOST];
    assert G4.client.timers[4 := ReconnectTimer(3)] == map[4 := ReconnectTimer(3)];
  }

  lemma {:induction false} Redials()
    requires Valid(G6)
    ensures Enabled(G6, ReconnectTick(4, true)) && Step(G6, ReconnectTick(4, true)) == G7
  {
    assert G6.client.timers - {4} == map[];
    assert G6.client.flights[5 := Reopening(3)] == map[5 := Reopening(3)];
    assert G6.client.records[3 := WAITING] == map[3 := WAITING];
  }

  lemma {:induction false} RejoinClient()
    requires WellFormed(G7.client)
    ensures ReopenResume(G7.client, 5, true) == (G8.client, Some(6))
  {
    assert 0 in REG[1]["e"];
    assert Listening(G7.client);
    assert G7.client.flights - {5} == map[];
    assert G7.client.records[3 := REJOINED] == map[3 := REJOINED];
  }

  lemma {:induction false} Rejoins()
    requires Valid(G7)
    ensures Enabled(G7, ReopenTicket(5, true)) && Step(G7, ReopenTicket(5, true)) == G8
  {
    RejoinClient();
    hide ReopenResume, Listening;
    var s := TicketStep(G7, 5, true);
    assert s.sockets == G8.sockets;
    assert s.delivered == G8.delivered;
  }

  /** The new connection asks for a replay from 1 and goes live past 2 instead. */
  lemma {:induction false} Resumes()
    requires Valid(G8)
    ensures Enabled(G8, SocketOpens(6)) && Step(G8, SocketOpens(6)) == G9 && Valid(G9)
    ensures Enabled(G9, GatewayAnswers(6, false, 2, {})) && !Bridged(G9, GatewayAnswers(6, false, 2, {}))
    ensures Step(G9, GatewayAnswers(6, false, 2, {})) == G10 && Valid(G10)
  {
    assert G8.client.records[3 := RESUMED] == map[3 := RESUMED];
    assert G8.sockets[6 := Socket(Upgraded(1))] == G9.sockets;
    assert G9.sockets[6 := Socket(Streaming(3, {}))] == G10.sockets;
  }

  lemma {:induction false} SkippingFrame()
    requires Valid(G11)
    ensures Enabled(G11, Frame(6)) && Step(G11, Frame(6)) == G12
  {
    assert G11.sockets[6 := Socket(Streaming(4, {}))] == G12.sockets;
    assert G11.client.records[3 := AHEAD] == map[3 := AHEAD];
    assert [1] + [3] == [1, 3];
    assert G11.delivered[3 := [1] + [3]] == map[3 := [1, 3]];
  }

  /** Neither the close of a socket we closed nor a failing reopen. */
  ghost predicate Calm(s: Session, a: Action)
    requires Valid(s) && Enabled(s, a)
  {
    (a.SocketCloses? ==> !s.sockets[a.socket].phase.Closing?) && (a.ReopenTicket? ==> a.granted)
  }

  ghost predicate Reaches(run: seq<Action>, s: Session) {
    Feasible(INIT, run) && After(INIT, run) == s && HarmlessRun(INIT, run)
  }

  lemma {:induction false} GoOn(run: seq<Action>, s: Session, a: Action, s': Session) returns (longer: seq<Action>)
    requires Reaches(run, s) && Valid(s) && Enabled(s, a) && Calm(s, a) && Step(s, a) == s'
    ensures Reaches(longer, s') && Valid(s') && longer == run + [a]
  {
    hide Step, Enabled, Valid, ReopenInFlight, ShouldReconnect;
    Go(run, s, a, s');
    longer := run + [a];
  }

  lemma {:induction false} Happens(run: seq<Action>, s: Session) returns (longer: seq<Action>)
    requires Reaches(run, s) && Valid(s)
    ensures Reaches(longer, s.(log := s.log + 1)) && Valid(s.(log := s.log + 1)) && longer == run + [Emit]
  {
    assert Step(s, Emit) == s.(log := s.log + 1);
    hide Step, Valid;
    longer := GoOn(run, s, Emit, s.(log := s.log + 1));
  }

  lemma {:induction false} ReachG2() returns (run: seq<Action>)
    ensures Reaches(run, G2) && Valid(G2) && forall i | 0 <= i < |run| :: !run[i].SocketCloses?
  {
    Ask();
    Connect();
    GoLive();
    hide Step, Valid;
    run := GoOn([], INIT, DoSubscribe("e", 0, true), ASKED);
    run := GoOn(run, ASKED, OpenTicket(0, true), CONNECTED);
    run := GoOn(run, CONNECTED, SocketOpens(2), G1);
    run := GoOn(run, G1, GatewayAnswers(2, false, 0, {}), G2);
  }

  lemma {:induction false} ReachG8() returns (run: seq<Action>)
    ensures Reaches(run, G8) && Valid(G8)
  {
    hide Step, Valid;
    run := ReachG2();
    run := Happens(run, G2);
    FirstFrame();
    run := GoOn(run, G3, Frame(2), G4);
    Drops();
    run := GoOn(run, G4, SocketCloses(2, 1006), G5);
    run := Happens(run, G5);
    Redials();
    run := GoOn(run, G6, ReconnectTick(4, true), G7);
    Rejoins();
    run := GoOn(run, G7, ReopenTicket(5, true), G8);
  }

  lemma {:induction false} TwoIsSkipped()
    requires Valid(G12)
    ensures Skipped(G12, 3, 2)
  {
    assert G12.sockets[6].phase == Streaming(4, {});
  }

  /** A run without stale callbacks after which record 3 has received 1 and 3, and never will receive 2. */
  lemma {:induction false} SkippedWitness() returns (run: seq<Action>)
    ensures Feasible(INIT, run) && HarmlessRun(INIT, run)
    ensures After(INIT, run).delivered == map[3 := [1, 3]] && Skipped(After(INIT, run), 3, 2)
  {
    hide Step, Valid, Skipped, Bridged;
    run := ReachG8();
    Resumes();
    run := GoOn(run, G8, SocketOpens(6), G9);
    run := GoOn(run, G9, GatewayAnswers(6, false, 2, {}), G10);
    run := Happens(run, G10);
    SkippingFrame();
    run := GoOn(run, G11, Frame(6), G12);
    TwoIsSkipped();
  }

  // ---------------------------------------------------------------------------
  // An event dropped on a live connection
  // ---------------------------------------------------------------------------

  const D5 := G4.(log := 2)
  const D6 := G4.(log := 3)
  const D7 := D6.(sockets := map[2 := Socket(Streaming(3, {2}))])
  const D8 := Session(With(PASSED, map[], map[], 4), map[2 := Socket(Streaming(4, {2}))], 3, map[3 := [1, 3]])
  const PASSED := Record(Some(2), Open, 0, false, None, 3, None)

  lemma {:induction false} Drops2()
    requires Valid(D6)
    ensures Enabled(D6, Overtake(2)) && Step(D6, Overtake(2)) == D7
  {
    var none: set<nat> := {};
    assert none + {2} == {2};
    assert D6.sockets[2 := Socket(Streaming(3, none + {2}))] == D7.sockets;
  }

  lemma {:induction false} Delivers3()
    requires Valid(D7)
    ensures Enabled(D7, Frame(2)) && Step(D7, Frame(2)) == D8
  {
    assert D7.sockets[2 := Socket(Streaming(4, {2}))] == D8.sockets;
    assert D7.client.records[3 := PASSED] == map[3 := PASSED];
    assert [1] + [3] == [1, 3];
    assert D7.delivered[3 := [1] + [3]] == map[3 := [1, 3]];
  }

  /** A run on one connection, never short of a replay, whose listener receives 1 and 3 because the fan-out drops 2. */
  lemma {:induction false} DroppedWitness() returns (run: seq<Action>)
    ensures Feasible(INIT, run) && HarmlessRun(INIT, run)
    ensures After(INIT, run).delivered == map[3 := [1, 3]]
    ensures forall i | 0 <= i < |run| :: !run[i].SocketCloses?
  {
    hide Step, Valid;
    run := ReachG2();
    run := Happens(run, G2);
    FirstFrame();
    run := GoOn(run, G3, Frame(2), G4);
    run := Happens(run, G4);
    run := Happens(run, D5);
    Drops2();
    run := GoOn(run, D6, Overtake(2), D7);
    Delivers3();
    run := GoOn(run, D7, Frame(2), D8);
  }
}
