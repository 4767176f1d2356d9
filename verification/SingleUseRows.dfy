/**
 Single-use rows: magic-link tokens and resume tokens (guarded UPDATE of used_at) and
 OAuth nonces (DELETE ... RETURNING). Concurrent callers are a sequence of statements,
 each atomic: who wins, under any interleaving.
 */
module SingleUseRows {
  import opened Wrappers

  // ---------------------------------------------------------------------------
  // Tokens
  // ---------------------------------------------------------------------------

  datatype Token = Token(expiresAt: int, usedAt: Option<int>)

  type Tokens = map<string, Token>

  /** used_at is nullable in the generated code. The resume statement also compares the expiry. */
  datatype Statement =
    | Create(id: string, token: Token)
    | ConsumeMagicLink(id: string, usedAt: Option<int>)
    | ConsumeResume(id: string, usedAt: Option<int>, now: int)

  /** The statement consumes id whenever id is unused. */
  predicate Eligible(st: Statement, id: string, expiresAt: int) {
    !st.Create? && st.id == id && (st.ConsumeResume? ==> expiresAt > st.now)
  }

  predicate Wins(rows: Tokens, st: Statement) {
    st.id in rows && rows[st.id].usedAt.None? && Eligible(st, st.id, rows[st.id].expiresAt)
  }

  function Exec(rows: Tokens, st: Statement): Tokens {
    if st.Create? then (if st.id in rows then rows else rows[st.id := st.token])
    else if Wins(rows, st) then rows[st.id := rows[st.id].(usedAt := st.usedAt)]
    else rows
  }

  /** How many of the statements consumed id. */
  function Winners(rows: Tokens, run: seq<Statement>, id: string): nat
    decreases |run|
  {
    if run == [] then 0
    else (if Wins(rows, run[0]) && run[0].id == id then 1 else 0) + Winners(Exec(rows, run[0]), run[1..], id)
  }

  /** A used token is never consumed again. */
  lemma {:induction false} UsedStaysUsed(rows: Tokens, run: seq<Statement>, id: string)
    requires id in rows && rows[id].usedAt.Some?
    ensures Winners(rows, run, id) == 0
    decreases |run|
  {
    if run != [] {
      UsedStaysUsed(Exec(rows, run[0]), run[1..], id);
    }
  }

  ghost predicate SomeEligible(run: seq<Statement>, id: string, expiresAt: int) {
    exists k :: 0 <= k < |run| && Eligible(run[k], id, expiresAt)
  }

  lemma {:induction false} EligibleTail(st: Statement, rest: seq<Statement>, id: string, expiresAt: int)
    ensures SomeEligible([st] + rest, id, expiresAt) <==> Eligible(st, id, expiresAt) || SomeEligible(rest, id, expiresAt)
  {
    var run := [st] + rest;
    if Eligible(st, id, expiresAt) {
      assert Eligible(run[0], id, expiresAt);
    } else if SomeEligible(rest, id, expiresAt) {
      var k :| 0 <= k < |rest| && Eligible(rest[k], id, expiresAt);
      assert Eligible(run[k + 1], id, expiresAt);
    }
  }

  /** An unused token is consumed at least once exactly when some statement is eligible for it. */
  lemma {:induction false} SomeoneWins(rows: Tokens, run: seq<Statement>, id: string)
    requires id in rows && rows[id].usedAt.None?
    ensures Winners(rows, run, id) >= 1 <==> SomeEligible(run, id, rows[id].expiresAt)
    decreases |run|
  {
    if run != [] {
      assert run == [run[0]] + run[1..];
      EligibleTail(run[0], run[1..], id, rows[id].expiresAt);
      if !(Wins(rows, run[0]) && run[0].id == id) {
        SomeoneWins(Exec(rows, run[0]), run[1..], id);
      }
    }
  }

  /** A first eligible statement writes a null, and a second one follows. */
  ghost predicate Reopened(run: seq<Statement>, id: string, expiresAt: int)
    decreases |run|
  {
    run != [] &&
    if Eligible(run[0], id, expiresAt) then run[0].usedAt.None? && SomeEligible(run[1..], id, expiresAt)
    else Reopened(run[1..], id, expiresAt)
  }

  /** At most one winner under any interleaving, if and only if the first eligible statement does not write a null before another. */
  lemma {:induction false} AtMostOneWinner(rows: Tokens, run: seq<Statement>, id: string)
    requires id in rows && rows[id].usedAt.None?
    ensures Winners(rows, run, id) <= 1 <==> !Reopened(run, id, rows[id].expiresAt)
    decreases |run|
  {
    if run != [] {
      var rows' := Exec(rows, run[0]);
      if !Eligible(run[0], id, rows[id].expiresAt) {
        AtMostOneWinner(rows', run[1..], id);
      } else if run[0].usedAt.Some? {
        UsedStaysUsed(rows', run[1..], id);
      } else {
        SomeoneWins(rows', run[1..], id);
      }
    }
  }

  ghost predicate NonNull(run: seq<Statement>) {
    forall k | 0 <= k < |run| :: !run[k].Create? ==> run[k].usedAt.Some?
  }

  /** With the timestamps the handlers pass, exactly one of the eligible callers wins, and no one when there is none. */
  lemma {:induction false} ExactlyOneWinner(rows: Tokens, run: seq<Statement>, id: string)
    requires id in rows && rows[id].usedAt.None? && NonNull(run)
    ensures Winners(rows, run, id) == if SomeEligible(run, id, rows[id].expiresAt) then 1 else 0
  {
    NeverReopened(run, id, rows[id].expiresAt);
    AtMostOneWinner(rows, run, id);
    SomeoneWins(rows, run, id);
  }

  lemma {:induction false} NeverReopened(run: seq<Statement>, id: string, expiresAt: int)
    requires NonNull(run)
    ensures !Reopened(run, id, expiresAt)
    decreases |run|
  {
    if run != [] && !Eligible(run[0], id, expiresAt) {
      assert forall k | 0 <= k < |run[1..]| :: run[1..][k] == run[k + 1];
      NeverReopened(run[1..], id, expiresAt);
    }
  }

  /** From any table on: no token ever has two winners, whenever it is created. */
  lemma {:induction false} OneWinnerPerToken(rows: Tokens, run: seq<Statement>, id: string)
    requires NonNull(run)
    ensures Winners(rows, run, id) <= 1
    decreases |run|
  {
    if id in rows {
      if rows[id].usedAt.Some? {
        UsedStaysUsed(rows, run, id);
      } else {
        ExactlyOneWinner(rows, run, id);
      }
    } else if run != [] {
      assert forall k | 0 <= k < |run[1..]| :: run[1..][k] == run[k + 1];
      OneWinnerPerToken(Exec(rows, run[0]), run[1..], id);
    }
  }

  class TokenTable {
    var rows: Tokens

    method ConsumeMagicLinkToken(id: string, usedAt: int) returns (affected: nat)
      modifies this
      ensures rows == Exec(old(rows), ConsumeMagicLink(id, Some(usedAt)))
      ensures affected == 1 <==> id in old(rows) && old(rows)[id].usedAt.None?
      ensures affected == 0 <==> rows == old(rows)
    {
      if id in rows && rows[id].usedAt.None? {
        rows := rows[id := rows[id].(usedAt := Some(usedAt))];
        assert rows[id] != old(rows)[id];
        return 1;
      }
      return 0;
    }

    method ConsumeResumeToken(hash: string, usedAt: int, now: int) returns (row: Option<Token>)
      modifies this
      ensures rows == Exec(old(rows), ConsumeResume(hash, Some(usedAt), now))
      ensures row.Some? <==> hash in old(rows) && old(rows)[hash].usedAt.None? && old(rows)[hash].expiresAt > now
      ensures row.Some? ==> row.value == old(rows)[hash].(usedAt := Some(usedAt)) && hash in rows && row.value == rows[hash]
    {
      if hash in rows && rows[hash].usedAt.None? && rows[hash].expiresAt > now {
        rows := rows[hash := rows[hash].(usedAt := Some(usedAt))];
        return Some(rows[hash]);
      }
      return None;
    }
  }

  // ---------------------------------------------------------------------------
  // OAuth nonces
  // ---------------------------------------------------------------------------

  /** Expiry times by nonce. */
  type Nonces = map<string, int>

  datatype NonceStatement = InsertNonce(nonce: string, expiresAt: int) | ConsumeNonce(nonce: string) | Cleanup(cutoff: int)

  function ExecNonce(rows: Nonces, st: NonceStatement): Nonces {
    match st
    case InsertNonce(n, e) => if n in rows then rows else rows[n := e]
    case ConsumeNonce(n) => rows - {n}
    case Cleanup(cutoff) => map n | n in rows && !(rows[n] < cutoff) :: rows[n]
  }

  function NoncesAfter(rows: Nonces, run: seq<NonceStatement>): Nonces
    decreases |run|
  {
    if run == [] then rows else NoncesAfter(ExecNonce(rows, run[0]), run[1..])
  }

  function Indicator(b: bool): nat {
    if b then 1 else 0
  }

  function Inserts(rows: Nonces, run: seq<NonceStatement>, n: string): nat
    decreases |run|
  {
    if run == [] then 0
    else Indicator(run[0].InsertNonce? && run[0].nonce == n && n !in rows) + Inserts(ExecNonce(rows, run[0]), run[1..], n)
  }

  function Consumes(rows: Nonces, run: seq<NonceStatement>, n: string): nat
    decreases |run|
  {
    if run == [] then 0
    else Indicator(run[0] == ConsumeNonce(n) && n in rows) + Consumes(ExecNonce(rows, run[0]), run[1..], n)
  }

  function Cleanups(rows: Nonces, run: seq<NonceStatement>, n: string): nat
    decreases |run|
  {
    if run == [] then 0
    else Indicator(run[0].Cleanup? && n in rows && rows[n] < run[0].cutoff) + Cleanups(ExecNonce(rows, run[0]), run[1..], n)
  }

  /** Every insert of a nonce is consumed once, cleaned up once, or still there. */
  lemma {:induction false} NonceConservation(rows: Nonces, run: seq<NonceStatement>, n: string)
    ensures Indicator(n in rows) + Inserts(rows, run, n) ==
            Consumes(rows, run, n) + Cleanups(rows, run, n) + Indicator(n in NoncesAfter(rows, run))
    decreases |run|
  {
    if run != [] {
      NonceConservation(ExecNonce(rows, run[0]), run[1..], n);
    }
  }

  /** A nonce inserted once is consumed at most once. */
  lemma {:induction false} NonceConsumedAtMostOnce(run: seq<NonceStatement>, n: string)
    requires Inserts(map[], run, n) <= 1
    ensures Consumes(map[], run, n) <= 1
    ensures Consumes(map[], run, n) == 1 ==> n !in NoncesAfter(map[], run)
  {
    NonceConservation(map[], run, n);
  }

  class NonceTable {
    var rows: Nonces

    method ConsumeOAuthState(nonce: string) returns (expiresAt: Option<int>)
      modifies this
      ensures rows == ExecNonce(old(rows), ConsumeNonce(nonce)) && nonce !in rows
      ensures expiresAt == if nonce in old(rows) then Some(old(rows)[nonce]) else None
    {
      if nonce !in rows {
        assert rows - {nonce} == rows;
        return None;
      }
      expiresAt := Some(rows[nonce]);
      rows := rows - {nonce};
    }
  }
}
