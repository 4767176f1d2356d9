/**
 The browser's auth store (frontend/src/lib/auth.svelte.ts): sign-in, adoption,
 sign-out and the /api/me loads that race with them. An async load is three steps:
 it starts, its request leaves, its response arrives.
 */
module AuthStore {
  import opened Wrappers

  /** A user as /api/me returned it, with the token the request carried. */
  datatype User = User(id: string, fetchedWith: Option<string>)

  /** An org membership, with the token its request carried: /api/me, or the creation of the org. */
  datatype Org = Org(id: string, obtainedWith: Option<string>)

  function Tagged(ids: seq<string>, token: Option<string>): (orgs: seq<Org>)
    ensures |orgs| == |ids| && forall i | 0 <= i < |ids| :: orgs[i] == Org(ids[i], token)
  {
    seq(|ids|, i requires 0 <= i < |ids| => Org(ids[i], token))
  }

  datatype Flight = Flight(tokenAtStart: Option<string>, sentWith: Option<Option<string>>)

  datatype State = State(
    token: Option<string>,
    refresh: Option<string>,
    user: Option<User>,
    orgs: Option<seq<Org>>,
    loading: Option<nat>,
    stored: Option<string>,      // localStorage[jamsesh.token]
    flights: map<nat, Flight>,
    nextId: nat)

  function Opened(stored: Option<string>): State {
    State(stored, None, None, None, None, stored, map[], 0)
  }

  datatype Action =
    | SetTokens(access: string, refresh: string)
    | SetAccessOnly(access: string)
    | SignOut
    | LoadStart
    | LoadSend(flight: nat)
    | LoadEnd(flight: nat, reply: Option<(string, seq<string>)>)   // user id and orgs, None on failure
    | AddOrg(org: Org)

  ghost predicate Valid(s: State) {
    forall f | f in s.flights :: f < s.nextId
  }

  predicate Enabled(s: State, a: Action) {
    match a
    case LoadSend(f) => f in s.flights && s.flights[f].sentWith.None?
    case LoadEnd(f, _) => f in s.flights && s.flights[f].sentWith.Some?
    case _ => true
  }

  /** loadCurrentUser neither returns at once nor joins a load in progress. */
  predicate Starts(s: State) {
    !(s.user.Some? && s.orgs.Some?) && s.loading.None?
  }

  /** The response is kept: the token is still the one the load started with. */
  predicate Accepted(s: State, f: nat, reply: Option<(string, seq<string>)>)
    requires f in s.flights
  {
    reply.Some? && s.token.Some? && s.token == s.flights[f].tokenAtStart
  }

  function Step(s: State, a: Action): (s': State)
    requires Valid(s) && Enabled(s, a)
    ensures Valid(s')
  {
    match a
    case SetTokens(access, refresh) => s.(token := Some(access), refresh := Some(refresh), stored := Some(access))
    case SetAccessOnly(access) =>
      s.(token := Some(access), refresh := None, user := None, orgs := None, loading := None, stored := Some(access))
    case SignOut => s.(token := None, refresh := None, user := None, orgs := None, loading := None, stored := None)
    case LoadStart =>
      if !Starts(s) then s else
        s.(loading := Some(s.nextId), flights := s.flights[s.nextId := Flight(s.token, None)], nextId := s.nextId + 1)
    case LoadSend(f) => s.(flights := s.flights[f := s.flights[f].(sentWith := Some(s.token))])
    case LoadEnd(f, reply) =>
      var s1 := if Accepted(s, f, reply)
                then s.(user := Some(User(reply.value.0, s.flights[f].sentWith.value)), orgs := Some(Tagged(reply.value.1, s.flights[f].sentWith.value)))
                else s;
      s1.(loading := None, flights := s.flights - {f})
    case AddOrg(org) => s.(orgs := Some(if s.orgs.Some? then s.orgs.value + [org] else [org]))
  }

  // ---------------------------------------------------------------------------
  // No stale identity
  // ---------------------------------------------------------------------------

  /** The stored token is the one in memory; a cached user and every cached org were obtained with it. */
  ghost predicate Consistent(s: State) {
    && s.stored == s.token
    && (s.user.Some? ==> s.token.Some? && s.user.value.fetchedWith == s.token)
    && (s.orgs.Some? ==> forall i | 0 <= i < |s.orgs.value| :: s.orgs.value[i].obtainedWith == s.token)
  }

  /** setTokens over the cached user or orgs of another token. */
  ghost predicate SwitchesUnderCache(s: State, a: Action) {
    a.SetTokens? && s.token != Some(a.access) && (s.user.Some? || (s.orgs.Some? && s.orgs.value != []))
  }

  /** An org that was created under another token is added. */
  ghost predicate AddsForeignOrg(s: State, a: Action) {
    a.AddOrg? && a.org.obtainedWith != s.token
  }

  /** A kept response whose request left with another token than its load started with. */
  ghost predicate SentLate(s: State, a: Action)
    requires Enabled(s, a)
  {
    a.LoadEnd? && Accepted(s, a.flight, a.reply) && s.flights[a.flight].sentWith != Some(s.flights[a.flight].tokenAtStart)
  }

  lemma {:induction false} ConsistentStep(s: State, a: Action)
    requires Valid(s) && Enabled(s, a) && Consistent(s)
    ensures Consistent(Step(s, a)) <==> !SwitchesUnderCache(s, a) && !SentLate(s, a) && !AddsForeignOrg(s, a)
  {
    var s' := Step(s, a);
    if a.SetTokens? && s.orgs.Some? && s.orgs.value != [] {
      assert s'.orgs.value[0].obtainedWith == s.token;
    } else if a.AddOrg? {
      assert s'.orgs.value[|s'.orgs.value| - 1] == a.org;
    }
  }

  ghost predicate Feasible(s: State, run: seq<Action>)
    requires Valid(s)
    decreases |run|
  {
    run == [] || (Enabled(s, run[0]) && Feasible(Step(s, run[0]), run[1..]))
  }

  ghost predicate WellBehaved(s: State, run: seq<Action>)
    requires Valid(s) && Feasible(s, run)
    decreases |run|
  {
    run == []
    || (!SwitchesUnderCache(s, run[0]) && !SentLate(s, run[0]) && !AddsForeignOrg(s, run[0])
        && WellBehaved(Step(s, run[0]), run[1..]))
  }

  ghost predicate ConsistentThroughout(s: State, run: seq<Action>)
    requires Valid(s) && Feasible(s, run)
    decreases |run|
  {
    Consistent(s) && (run == [] || ConsistentThroughout(Step(s, run[0]), run[1..]))
  }

  /**
   Over every interleaving of sign-in, adoption, sign-out, loads and new orgs: a cached
   user and the cached orgs belong to the current token in every state, if and only if
   no setTokens runs over the cache of another token, no kept response's request left
   late and no org created under another token is added.
   */
  lemma {:induction false} NoStaleIdentity(s: State, run: seq<Action>)
    requires Valid(s) && Consistent(s) && Feasible(s, run)
    ensures ConsistentThroughout(s, run) <==> WellBehaved(s, run)
    decreases |run|
  {
    if run != [] {
      ConsistentStep(s, run[0]);
      var s' := Step(s, run[0]);
      if Consistent(s') {
        NoStaleIdentity(s', run[1..]);
      } else {
        assert !ConsistentThroughout(s', run[1..]);
      }
    }
  }

  ghost function After(s: State, run: seq<Action>): (s': State)
    requires Valid(s) && Feasible(s, run)
    ensures Valid(s')
    decreases |run|
  {
    if run == [] then s else After(Step(s, run[0]), run[1..])
  }

  /** With no premise: the stored token is always the one in memory. */
  lemma {:induction false} StoredTokenAlwaysCurrent(s: State, run: seq<Action>)
    requires Valid(s) && s.stored == s.token && Feasible(s, run)
    ensures After(s, run).stored == After(s, run).token
    decreases |run|
  {
    if run != [] {
      StoredTokenAlwaysCurrent(Step(s, run[0]), run[1..]);
    }
  }

  /** A cached user comes with cached orgs. */
  ghost predicate UserHasOrgs(s: State) {
    s.user.Some? ==> s.orgs.Some?
  }

  /** In every run orgs added to an empty cache do not pass for a loaded one: only a cached user stops the next load. */
  lemma {:induction false} OnlyUserStopsLoads(s: State, run: seq<Action>)
    requires Valid(s) && UserHasOrgs(s) && Feasible(s, run)
    ensures UserHasOrgs(After(s, run))
    ensures Starts(After(s, run)) <==> After(s, run).user.None? && After(s, run).loading.None?
    decreases |run|
  {
    if run != [] {
      OnlyUserStopsLoads(Step(s, run[0]), run[1..]);
    }
  }

  // ---------------------------------------------------------------------------
  // One load at a time
  // ---------------------------------------------------------------------------

  /** Every load in flight for the current token is the one later callers join. */
  ghost predicate Guarded(s: State) {
    forall f | f in s.flights && s.flights[f].tokenAtStart == s.token :: s.loading == Some(f)
  }

  ghost predicate InFlightFor(s: State, token: Option<string>) {
    exists f :: f in s.flights && s.flights[f].tokenAtStart == token && s.loading != Some(f)
  }

  /**
   A load that ends forgets the newer load in progress for the current token, or a
   token is taken on for which a load nobody joins is in flight.
   */
  ghost predicate LosesTrack(s: State, a: Action)
    requires Enabled(s, a)
  {
    match a
    case LoadEnd(f, _) =>
      s.loading.Some? && s.loading.value != f && s.loading.value in s.flights
      && s.flights[s.loading.value].tokenAtStart == s.token
    case SetTokens(access, _) => InFlightFor(s, Some(access))
    case SetAccessOnly(access) => InFlightFor(s.(loading := None), Some(access))
    case SignOut => InFlightFor(s.(loading := None), None)
    case _ => false
  }

  /** The single-flight guard holds after a step if and only if the step does not lose track. */
  lemma {:induction false} GuardedStep(s: State, a: Action)
    requires Valid(s) && Enabled(s, a) && Guarded(s)
    ensures Guarded(Step(s, a)) <==> !LosesTrack(s, a)
  {
    var s' := Step(s, a);
    match a
    case LoadEnd(f, _) =>
      if LosesTrack(s, a) {
        assert s'.flights[s.loading.value].tokenAtStart == s'.token;
      }
    case SetTokens(access, _) =>
      if LosesTrack(s, a) {
        var f :| f in s.flights && s.flights[f].tokenAtStart == Some(access) && s.loading != Some(f);
        assert s'.flights[f].tokenAtStart == s'.token;
      }
    case SetAccessOnly(access) =>
      if LosesTrack(s, a) {
        var f :| f in s.flights && s.flights[f].tokenAtStart == Some(access);
        assert s'.flights[f].tokenAtStart == s'.token;
      }
    case SignOut =>
      if LosesTrack(s, a) {
        var f :| f in s.flights && s.flights[f].tokenAtStart == None;
        assert s'.flights[f].tokenAtStart == s'.token;
      }
    case LoadSend(f) =>
      assert s'.flights[f].tokenAtStart == s.flights[f].tokenAtStart;
    case _ =>
  }

  ghost predicate GuardedThroughout(s: State, run: seq<Action>)
    requires Valid(s) && Feasible(s, run)
    decreases |run|
  {
    Guarded(s) && (run == [] || GuardedThroughout(Step(s, run[0]), run[1..]))
  }

  ghost predicate KeepsTrack(s: State, run: seq<Action>)
    requires Valid(s) && Feasible(s, run)
    decreases |run|
  {
    run == [] || (!LosesTrack(s, run[0]) && KeepsTrack(Step(s, run[0]), run[1..]))
  }

  /** Over every run: later callers always join the load in flight for the current token, if and only if no step loses track. */
  lemma {:induction false} SingleFlight(s: State, run: seq<Action>)
    requires Valid(s) && Guarded(s) && Feasible(s, run)
    ensures GuardedThroughout(s, run) <==> KeepsTrack(s, run)
    decreases |run|
  {
    hide Step, LosesTrack, Guarded;
    if run != [] {
      GuardedStep(s, run[0]);
      var s' := Step(s, run[0]);
      if Guarded(s') {
        SingleFlight(s', run[1..]);
      } else {
        assert !GuardedThroughout(s', run[1..]);
      }
    }
  }

  lemma Prepend(s: State, a: Action, run: seq<Action>)
    requires Valid(s) && Enabled(s, a) && Feasible(Step(s, a), run)
    ensures Feasible(s, [a] + run) && After(s, [a] + run) == After(Step(s, a), run)
  {
    assert ([a] + run)[1..] == run;
  }

  /** A run in which an old load's end lets two loads of the same token be in flight at once. */
  lemma {:induction false} DoubleLoadWitness() returns (s: State)
    ensures Valid(s) && exists f, g :: f in s.flights && g in s.flights && f != g
                                       && s.flights[f].tokenAtStart == s.flights[g].tokenAtStart == s.token == Some("b")
    ensures exists run :: Feasible(Opened(Some("a")), run) && s == After(Opened(Some("a")), run)
  {
    var s0 := Opened(Some("a"));
    var s1 := Step(s0, LoadStart);
    var s2 := Step(s1, LoadSend(0));
    var s3 := Step(s2, SignOut);
    var s4 := Step(s3, SetTokens("b", "r"));
    var s5 := Step(s4, LoadStart);
    var s6 := Step(s5, LoadEnd(0, None));
    s := Step(s6, LoadStart);
    Prepend(s6, LoadStart, []);
    Prepend(s5, LoadEnd(0, None), [LoadStart] + []);
    Prepend(s4, LoadStart, [LoadEnd(0, None)] + ([LoadStart] + []));
    var rest := [LoadStart] + ([LoadEnd(0, None)] + ([LoadStart] + []));
    Prepend(s3, SetTokens("b", "r"), rest);
    Prepend(s2, SignOut, [SetTokens("b", "r")] + rest);
    Prepend(s1, LoadSend(0), [SignOut] + ([SetTokens("b", "r")] + rest));
    Prepend(s0, LoadStart, [LoadSend(0)] + ([SignOut] + ([SetTokens("b", "r")] + rest)));
    assert s.flights[1].tokenAtStart == s.flights[2].tokenAtStart == s.token;
  }

  /** A run in which a sign-in over a cached user leaves the previous account's user under the new token. */
  lemma {:induction false} StaleUserWitness() returns (run: seq<Action>)
    ensures Feasible(Opened(Some("a")), run)
    ensures var s := After(Opened(Some("a")), run);
            s.token == Some("b") && s.user == Some(User("u", Some("a"))) && s.orgs == Some([Org("o", Some("a"))])
  {
    var s0 := Opened(Some("a"));
    var s1 := Step(s0, LoadStart);
    var s2 := Step(s1, LoadSend(0));
    var s3 := Step(s2, LoadEnd(0, Some(("u", ["o"]))));
    assert Tagged(["o"], Some("a")) == [Org("o", Some("a"))];
    assert s2.flights[0] == Flight(Some("a"), Some(Some("a")));
    Prepend(s3, SetTokens("b", "r"), []);
    Prepend(s2, LoadEnd(0, Some(("u", ["o"]))), [SetTokens("b", "r")] + []);
    Prepend(s1, LoadSend(0), [LoadEnd(0, Some(("u", ["o"])))] + ([SetTokens("b", "r")] + []));
    run := [LoadStart] + ([LoadSend(0)] + ([LoadEnd(0, Some(("u", ["o"])))] + ([SetTokens("b", "r")] + [])));
    Prepend(s0, LoadStart, [LoadSend(0)] + ([LoadEnd(0, Some(("u", ["o"])))] + ([SetTokens("b", "r")] + [])));
  }

  // ---------------------------------------------------------------------------
  // The store itself
  // ---------------------------------------------------------------------------

  class Store {
    var token: Option<string>
    var refresh: Option<string>
    var currentUser: Option<User>
    var orgs: Option<seq<Org>>
    var loadingMe: Option<nat>
    var stored: Option<string>
    var flights: map<nat, Flight>
    var nextId: nat

    function View(): State
      reads this
    {
      State(token, refresh, currentUser, orgs, loadingMe, stored, flights, nextId)
    }

    constructor (stored: Option<string>)
      ensures View() == Opened(stored)
    {
      token, refresh, currentUser, orgs, loadingMe := stored, None, None, None, None;
      this.stored, flights, nextId := stored, map[], 0;
    }

    method SetTokens(access: string, refreshTok: string)
      requires Valid(View())
      modifies this
      ensures View() == Step(old(View()), Action.SetTokens(access, refreshTok))
    {
      token := Some(access);
      refresh := Some(refreshTok);
      stored := Some(access);
    }

    method SetAccessOnly(access: string)
      requires Valid(View())
      modifies this
      ensures View() == Step(old(View()), Action.SetAccessOnly(access))
      ensures Consistent(old(View())) ==> Consistent(View())
    {
      token := Some(access);
      refresh := None;
      currentUser := None;
      orgs := None;
      loadingMe := None;
      stored := Some(access);
    }

    /** Returns the captured token for the logout call, if there was one. */
    method SignOut() returns (captured: Option<string>)
      requires Valid(View())
      modifies this
      ensures View() == Step(old(View()), Action.SignOut) && captured == old(token)
      ensures Consistent(old(View())) ==> Consistent(View())
    {
      captured := token;
      token := None;
      refresh := None;
      currentUser := None;
      orgs := None;
      loadingMe := None;
      stored := None;
    }

    /** loadCurrentUser up to its await. */
    method LoadStart()
      requires Valid(View())
      modifies this
      ensures View() == Step(old(View()), Action.LoadStart)
    {
      if currentUser.Some? && orgs.Some? {
        return;
      }
      if loadingMe.Some? {
        return;
      }
      loadingMe := Some(nextId);
      flights := flights[nextId := Flight(token, None)];
      nextId := nextId + 1;
    }

    /** The load's request leaves with the bearer current at that moment. */
    method LoadSend(f: nat)
      requires Valid(View()) && f in flights && flights[f].sentWith.None?
      modifies `flights
      ensures View() == Step(old(View()), Action.LoadSend(f))
    {
      flights := flights[f := flights[f].(sentWith := Some(token))];
    }

    /** loadCurrentUser after its await. */
    method LoadEnd(f: nat, reply: Option<(string, seq<string>)>)
      requires Valid(View()) && f in flights && flights[f].sentWith.Some?
      modifies this
      ensures View() == Step(old(View()), Action.LoadEnd(f, reply))
      ensures Consistent(old(View())) && old(flights[f].sentWith) == Some(old(flights[f].tokenAtStart)) ==>
                Consistent(View())
    {
      if reply.Some? && token.Some? && token == flights[f].tokenAtStart {
        currentUser := Some(User(reply.value.0, flights[f].sentWith.value));
        orgs := Some(Tagged(reply.value.1, flights[f].sentWith.value));
      }
      loadingMe := None;
      flights := flights - {f};
    }

    /** Keeps what was cached and its order; consistent exactly for an org of the current token; stops no load. */
    method AddOrg(org: Org)
      requires Valid(View())
      modifies `orgs
      ensures View() == Step(old(View()), Action.AddOrg(org))
      ensures orgs.Some? && (old(orgs).Some? ==> old(orgs).value < orgs.value) && org in orgs.value
      ensures Consistent(old(View())) ==> (Consistent(View()) <==> org.obtainedWith == token)
      ensures UserHasOrgs(old(View())) ==> (Starts(View()) <==> old(Starts(View())))
    {
      ghost var before := View();
      if orgs.None? {
        orgs := Some([org]);
      } else {
        orgs := Some(orgs.value + [org]);
      }
      if Consistent(before) {
        ConsistentStep(before, Action.AddOrg(org));
      }
    }
  }
}
