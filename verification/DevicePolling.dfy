/**
 The device-code polling loop (cmd/jamsesh/auth/device.go; section 3.5 of RFC 8628).
 The clock, the portal's replies and the token writes belong to the environment: a
 sleep lasts at least its argument, and time never runs backwards. Times are seconds.
 */
module DevicePolling {
  import opened Wrappers

  const DEFAULT_POLLING_INTERVAL := 5
  const SLOW_DOWN_INCREMENT := 5

  datatype Reply =
    | Unreachable
    | Granted(access: string, refresh: string)
    | AuthorizationPending
    | SlowDown
    | ExpiredToken
    | AccessDenied
    | OtherError(error: string, description: string)

  datatype Outcome =
    | ExpiredLocally
    | PollFailed
    | EmptyAccessToken
    | SignedIn
    | WriteFailed
    | ExpiredAtPortal
    | Denied
    | TokenError(message: string)

  /** How long past its argument sleep k lasts, how long poll k takes, what it returns, and which writes succeed. */
  datatype Environment = Environment(
    overshoot: nat -> nat, latency: nat -> nat, reply: nat -> Reply, accessWritable: bool, refreshWritable: bool)

  function InitialInterval(interval: int): (i: int)
    ensures i > 0
  {
    if interval > 0 then interval else DEFAULT_POLLING_INTERVAL
  }

  predicate Continues(r: Reply) {
    r.AuthorizationPending? || r.SlowDown?
  }

  /** The polls' times from poll k on, and whether the last reply or the clock ended the loop. */
  datatype Trace = Trace(polls: seq<int>, expired: bool)

  function Polling(env: Environment, expiresAt: int, k: nat, now: int, interval: int): Trace
    requires interval > 0
    decreases if now > expiresAt then 0 else expiresAt - now + 1
  {
    if now > expiresAt then Trace([], true)
    else
      var at := now + interval + env.overshoot(k);
      if !Continues(env.reply(k)) then Trace([at], false)
      else
        var interval' := if env.reply(k).SlowDown? then interval + SLOW_DOWN_INCREMENT else interval;
        var rest := Polling(env, expiresAt, k + 1, at + env.latency(k), interval');
        Trace([at] + rest.polls, rest.expired)
  }

  /** How many of the first k replies asked to slow down. */
  function SlowDowns(env: Environment, k: nat): nat {
    if k == 0 then 0 else SlowDowns(env, k - 1) + (if env.reply(k - 1).SlowDown? then 1 else 0)
  }

  /** Each poll waits the initial interval plus five seconds for every slow_down so far. */
  lemma {:induction false} PollsSpaced(env: Environment, expiresAt: int, k: nat, now: int, interval: int, first: int, j: nat)
    requires interval > 0 && interval == first + SLOW_DOWN_INCREMENT * SlowDowns(env, k)
    requires j < |Polling(env, expiresAt, k, now, interval).polls|
    ensures var polls := Polling(env, expiresAt, k, now, interval).polls;
            polls[j] - (if j == 0 then now else polls[j - 1]) >= first + SLOW_DOWN_INCREMENT * SlowDowns(env, k + j)
    decreases j
  {
    if j > 0 {
      var at := now + interval + env.overshoot(k);
      var interval' := if env.reply(k).SlowDown? then interval + SLOW_DOWN_INCREMENT else interval;
      PollsSpaced(env, expiresAt, k + 1, at + env.latency(k), interval', first, j - 1);
    }
  }

  /** At most one poll more than the first interval fits into the lifetime; none once the code has expired. */
  lemma {:induction false} PollsBounded(env: Environment, expiresAt: int, k: nat, now: int, interval: int, first: int)
    requires 0 < first <= interval
    ensures var n := |Polling(env, expiresAt, k, now, interval).polls|;
            if now > expiresAt then n == 0 else 1 <= n && (n - 1) * first <= expiresAt - now
    decreases if now > expiresAt then 0 else expiresAt - now + 1
  {
    if now <= expiresAt && Continues(env.reply(k)) {
      var at := now + interval + env.overshoot(k);
      var interval' := if env.reply(k).SlowDown? then interval + SLOW_DOWN_INCREMENT else interval;
      var next := at + env.latency(k);
      PollsBounded(env, expiresAt, k + 1, next, interval', first);
      var n := |Polling(env, expiresAt, k + 1, next, interval').polls|;
      OneMore(n, first);
    }
  }

  lemma OneMore(n: nat, d: int)
    ensures n * d == (n - 1) * d + d
  {
  }

  /** The bound is attained: a portal that only says pending, and a clock without lag. */
  lemma {:induction false} BoundAttained(env: Environment, expiresAt: int, k: nat, now: int, interval: int)
    requires 0 < interval && now <= expiresAt
    requires forall j: nat :: env.reply(j) == AuthorizationPending
    requires forall j: nat :: env.overshoot(j) == 0
    requires forall j: nat :: env.latency(j) == 0
    ensures var n := |Polling(env, expiresAt, k, now, interval).polls|;
            (n - 1) * interval <= expiresAt - now < n * interval
    decreases expiresAt - now
  {
    var next := now + interval;
    if next <= expiresAt {
      BoundAttained(env, expiresAt, k + 1, next, interval);
      var n := |Polling(env, expiresAt, k + 1, next, interval).polls|;
      OneMore(n, interval);
      OneMore(n + 1, interval);
    }
  }

  /** Every reply but the last is a wait; the clock ends the loop exactly when the last is one too. */
  lemma {:induction false} LastReplyDecides(env: Environment, expiresAt: int, k: nat, now: int, interval: int)
    requires interval > 0
    ensures var t := Polling(env, expiresAt, k, now, interval);
            && (forall i | k <= i < k + |t.polls| - 1 :: Continues(env.reply(i)))
            && (t.expired <==> |t.polls| == 0 || Continues(env.reply(k + |t.polls| - 1)))
    decreases if now > expiresAt then 0 else expiresAt - now + 1
  {
    if now <= expiresAt && Continues(env.reply(k)) {
      var at := now + interval + env.overshoot(k);
      var interval' := if env.reply(k).SlowDown? then interval + SLOW_DOWN_INCREMENT else interval;
      LastReplyDecides(env, expiresAt, k + 1, at + env.latency(k), interval');
    }
  }

  /** The two credential files the flow writes. */
  class LocalState {
    var access: Option<string>
    var refresh: Option<string>
  }

  /** What a reply that ends the loop leaves in the files. */
  method Conclude(r: Reply, env: Environment, files: LocalState) returns (outcome: Outcome)
    requires !Continues(r)
    modifies files
    ensures outcome == SignedIn ==>
              r.Granted? && r.access != "" && files.access == Some(r.access)
              && files.refresh == (if r.refresh == "" then old(files.refresh) else Some(r.refresh))
    ensures outcome == SignedIn <==>
              r.Granted? && r.access != "" && env.accessWritable && (r.refresh == "" || env.refreshWritable)
    ensures !(r.Granted? && r.access != "" && env.accessWritable) ==> files.access == old(files.access)
    ensures outcome != SignedIn ==> files.refresh == old(files.refresh)
    ensures outcome == ExpiredAtPortal <==> r.ExpiredToken?
    ensures outcome == Denied <==> r.AccessDenied?
    ensures outcome != ExpiredLocally
  {
    match r
    case Unreachable => return PollFailed;
    case Granted(access, refresh) =>
      if access == "" {
        return EmptyAccessToken;
      }
      if !env.accessWritable {
        return WriteFailed;
      }
      files.access := Some(access);
      if refresh != "" {
        if !env.refreshWritable {
          return WriteFailed;
        }
        files.refresh := Some(refresh);
      }
      return SignedIn;
    case ExpiredToken => return ExpiredAtPortal;
    case AccessDenied => return Denied;
    case OtherError(error, description) => return TokenError(if description == "" then error else description);
    case _ =>
  }

  /** The loop, up to the reply that ends it; None when the clock does. Its polls are those of Polling. */
  method Poll(env: Environment, expiresAt: int, firstCheck: int, interval: int) returns (last: Option<Reply>, polls: seq<int>)
    ensures Polling(env, expiresAt, 0, firstCheck, InitialInterval(interval)) == Trace(polls, last.None?)
    ensures last.Some? ==> |polls| > 0 && last.value == env.reply(|polls| - 1) && !Continues(last.value)
  {
    hide Polling;
    var wait := InitialInterval(interval);
    var now, k := firstCheck, 0;
    polls := [];
    assert Prefixed([], Polling(env, expiresAt, 0, firstCheck, wait)) == Polling(env, expiresAt, 0, firstCheck, wait);
    while now <= expiresAt
      invariant wait > 0 && k == |polls|
      invariant wait == InitialInterval(interval) + SLOW_DOWN_INCREMENT * SlowDowns(env, k)
      invariant Polling(env, expiresAt, 0, firstCheck, InitialInterval(interval)) ==
                Prefixed(polls, Polling(env, expiresAt, k, now, wait))
      decreases expiresAt - now
    {
      PollingStep(env, expiresAt, k, now, wait, polls);
      var at := now + wait + env.overshoot(k);
      var r := env.reply(k);
      now := at + env.latency(k);
      polls := polls + [at];
      k := k + 1;
      if !Continues(r) {
        return Some(r), polls;
      }
      if r.SlowDown? {
        wait := wait + SLOW_DOWN_INCREMENT;
      }
    }
    PollingDone(env, expiresAt, k, now, wait);
    return None, polls;
  }

  lemma PollingDone(env: Environment, expiresAt: int, k: nat, now: int, interval: int)
    requires interval > 0 && now > expiresAt
    ensures Polling(env, expiresAt, k, now, interval) == Trace([], true)
  {
  }

  function Prefixed(polls: seq<int>, t: Trace): Trace {
    Trace(polls + t.polls, t.expired)
  }

  lemma PollingStep(env: Environment, expiresAt: int, k: nat, now: int, interval: int, polls: seq<int>)
    requires interval > 0 && now <= expiresAt
    ensures var at := now + interval + env.overshoot(k);
            var interval' := if env.reply(k).SlowDown? then interval + SLOW_DOWN_INCREMENT else interval;
            Prefixed(polls, Polling(env, expiresAt, k, now, interval)) ==
            if Continues(env.reply(k)) then Prefixed(polls + [at], Polling(env, expiresAt, k + 1, at + env.latency(k), interval'))
            else Trace(polls + [at], false)
  {
    var at := now + interval + env.overshoot(k);
    if Continues(env.reply(k)) {
      var interval' := if env.reply(k).SlowDown? then interval + SLOW_DOWN_INCREMENT else interval;
      var rest := Polling(env, expiresAt, k + 1, at + env.latency(k), interval');
      assert polls + ([at] + rest.polls) == polls + [at] + rest.polls;
    }
  }

  /** The whole flow: it ends, tells the clock's expiry from the portal's answers, and writes tokens only on a grant. */
  method DeviceFlow(expiresIn: int, interval: int, env: Environment, start: int, firstCheck: int, files: LocalState)
    returns (outcome: Outcome, polls: seq<int>)
    requires start <= firstCheck
    modifies files
    ensures Polling(env, start + expiresIn, 0, firstCheck, InitialInterval(interval)) == Trace(polls, outcome == ExpiredLocally)
    ensures outcome == SignedIn ==>
              && |polls| > 0 && env.reply(|polls| - 1).Granted? && env.reply(|polls| - 1).access != ""
              && files.access == Some(env.reply(|polls| - 1).access)
    ensures outcome != SignedIn ==> files.refresh == old(files.refresh)
    ensures |polls| == 0 || !env.reply(|polls| - 1).Granted? ==> files.access == old(files.access)
    ensures polls != [] ==> (|polls| - 1) * InitialInterval(interval) <= expiresIn
    ensures forall j | 0 < j < |polls| :: polls[j] - polls[j - 1] >= InitialInterval(interval) + SLOW_DOWN_INCREMENT * SlowDowns(env, j)
  {
    hide Polling;
    var last;
    last, polls := Poll(env, start + expiresIn, firstCheck, interval);
    PollsBounded(env, start + expiresIn, 0, firstCheck, InitialInterval(interval), InitialInterval(interval));
    forall j | 0 < j < |polls|
      ensures polls[j] - polls[j - 1] >= InitialInterval(interval) + SLOW_DOWN_INCREMENT * SlowDowns(env, j)
    {
      PollsSpaced(env, start + expiresIn, 0, firstCheck, InitialInterval(interval), InitialInterval(interval), j);
    }
    if last.None? {
      return ExpiredLocally, polls;
    }
    outcome := Conclude(last.value, env, files);
  }
}
