/** The fan-out of the account-wide token into per-session files (cmd/jamsesh/state/migrate.go). */
module TokenMigration {
  import opened Wrappers
  import opened CredentialStore

  datatype Outcome =
    | Fresh               // no legacy token file
    | ReadFailed          // the legacy file exists and cannot be read
    | AlreadyMigrated
    | NoSessions
    | Partial(failCount: nat)
    | StubFailed
    | Migrated

  /** No session of the listing resolves to a different bearer. */
  ghost predicate MeaningKept(fs: Files, before: Files, dirs: set<string>) {
    forall sid | sid in dirs :: Bearer(fs, sid) == Bearer(before, sid)
  }

  /** A session token that could be read is never overwritten. */
  ghost predicate TokensKept(fs: Files, before: Files) {
    forall sid: string | Read(before, SessionToken(sid)).Success? ::
      Read(fs, SessionToken(sid)) == Read(before, SessionToken(sid))
  }

  ghost predicate AllHaveTokens(fs: Files, dirs: set<string>) {
    forall sid | sid in dirs :: Read(fs, SessionToken(sid)).Success?
  }

  /** What holds of the disk at any moment of a run. */
  ghost predicate CrashSafe(fs: Files, before: Files, dirs: set<string>) {
    && MeaningKept(fs, before, dirs)
    && TokensKept(fs, before)
    && (Read(fs, Token) != Read(before, Token) ==> AllHaveTokens(fs, dirs))
  }

  /** Some sessions that had no readable token now hold the legacy one; nothing else changed. */
  ghost predicate FannedOut(fs: Files, before: Files, legacy: string) {
    && Read(fs, Token) == Read(before, Token) == Success(legacy)
    && forall sid: string ::
         || Read(fs, SessionToken(sid)) == Read(before, SessionToken(sid))
         || (Read(before, SessionToken(sid)).Failure? && Read(fs, SessionToken(sid)) == Success(legacy))
  }

  lemma {:induction false} FannedOutIsSafe(fs: Files, before: Files, legacy: string, dirs: set<string>)
    requires FannedOut(fs, before, legacy) && "" !in dirs
    ensures CrashSafe(fs, before, dirs)
  {
  }

  lemma {:induction false} FanOutMore(fs: Files, mid: Files, before: Files, legacy: string, sid: string)
    requires FannedOut(mid, before, legacy) && OldOrNew(fs, mid, SessionToken(sid), legacy)
    requires Read(mid, SessionToken(sid)).Failure?
    ensures FannedOut(fs, before, legacy)
  {
    assert Read(fs, Token) == Read(mid, Token);
    forall x: string ensures x != sid ==> Read(fs, SessionToken(x)) == Read(mid, SessionToken(x)) {
    }
  }

  lemma {:induction false} StubIsSafe(fs: Files, mid: Files, before: Files, legacy: string, dirs: set<string>)
    requires FannedOut(mid, before, legacy) && AllHaveTokens(mid, dirs) && "" !in dirs
    requires OldOrNew(fs, mid, Token, MIGRATED_STUB)
    ensures CrashSafe(fs, before, dirs) && AllHaveTokens(fs, dirs)
  {
    assert forall x: string :: Read(fs, SessionToken(x)) == Read(mid, SessionToken(x));
  }

  ghost predicate SafeSince(history: seq<Files>, mark: seq<Files>, before: Files, dirs: set<string>) {
    mark <= history && forall i | |mark| <= i < |history| :: CrashSafe(history[i], before, dirs)
  }

  /** The loop over the listing. Returns the number of sessions it could not write. */
  method FanOut(d: DataDir, sessions: seq<string>, legacy: string) returns (failCount: nat)
    requires Read(d.files, Token) == Success(legacy)
    requires "" !in d.dirs && forall x :: x in sessions <==> x in d.dirs
    modifies d
    ensures d.dirs == old(d.dirs) && FannedOut(d.files, old(d.files), legacy)
    ensures SafeSince(d.history, old(d.history), old(d.files), d.dirs)
    ensures failCount == 0 ==> AllHaveTokens(d.files, d.dirs)
  {
    failCount := 0;
    for i := 0 to |sessions|
      invariant d.dirs == old(d.dirs) && FannedOut(d.files, old(d.files), legacy)
      invariant SafeSince(d.history, old(d.history), old(d.files), d.dirs)
      invariant failCount == 0 ==> forall j | 0 <= j < i :: Read(d.files, SessionToken(sessions[j])).Success?
    {
      var sid := sessions[i];
      if Read(d.files, SessionToken(sid)).Success? {
        continue;
      }
      ghost var mid, mark := d.files, d.history;
      var ok := d.WriteSessionToken(sid, legacy);
      forall k | |mark| <= k < |d.history| ensures CrashSafe(d.history[k], old(d.files), d.dirs) {
        FanOutMore(d.history[k], mid, old(d.files), legacy, sid);
        FannedOutIsSafe(d.history[k], old(d.files), legacy, d.dirs);
      }
      FanOutMore(d.files, mid, old(d.files), legacy, sid);
      assert forall x: string | x != sid :: Read(d.files, SessionToken(x)) == Read(mid, SessionToken(x));
      if !ok {
        failCount := failCount + 1;
      }
    }
  }

  /** MigrateToPerSessionTokens. A directory entry has a name, so "" is not a session. */
  method Migrate(d: DataDir) returns (outcome: Outcome)
    requires "" !in d.dirs
    modifies d
    ensures d.dirs == old(d.dirs)
    ensures CrashSafe(d.files, old(d.files), d.dirs)
    ensures SafeSince(d.history, old(d.history), old(d.files), d.dirs)
    ensures outcome.Fresh? <==> Read(old(d.files), Token) == Failure(NotExist)
    ensures outcome.ReadFailed? <==> Read(old(d.files), Token) == Failure(Failed)
    ensures outcome.AlreadyMigrated? <==> Read(old(d.files), Token) == Success(MIGRATED_STUB)
    ensures outcome.NoSessions? ==> d.dirs == {}
    ensures outcome.Fresh? || outcome.ReadFailed? || outcome.AlreadyMigrated? || outcome.NoSessions? ==>
              d.files == old(d.files) && d.history == old(d.history)
    ensures outcome.Partial? ==> outcome.failCount > 0 && Read(d.files, Token) == Read(old(d.files), Token)
    ensures outcome.Migrated? ==> Read(d.files, Token) == Success(MIGRATED_STUB) && AllHaveTokens(d.files, d.dirs)
  {
    var legacy := Read(d.files, Token);
    if legacy == Failure(NotExist) {
      return Fresh;
    }
    if legacy.Failure? {
      return ReadFailed;
    }
    if legacy.value == MIGRATED_STUB {
      return AlreadyMigrated;
    }
    var sessions := d.ListSessions();
    if |sessions| == 0 {
      assert forall x :: x !in sessions;
      return NoSessions;
    }
    var failCount := FanOut(d, sessions, legacy.value);
    FannedOutIsSafe(d.files, old(d.files), legacy.value, d.dirs);
    if failCount > 0 {
      return Partial(failCount);
    }
    ghost var mid, mark := d.files, d.history;
    var ok := d.Write(Token, MIGRATED_STUB);
    forall k | |mark| <= k < |d.history| ensures CrashSafe(d.history[k], old(d.files), d.dirs) {
      StubIsSafe(d.history[k], mid, old(d.files), legacy.value, d.dirs);
    }
    StubIsSafe(d.files, mid, old(d.files), legacy.value, d.dirs);
    outcome := if ok then Migrated else StubFailed;
  }

  /**
   Outside the listing the meaning changes: after a complete migration a session
   without a directory entry or token of its own keeps its bearer if and only if
   the legacy bearer was the stub's text already.
   */
  lemma {:induction false} UnlistedSessionsReadStub(fs: Files, before: Files, sid: string, legacy: string)
    requires Read(before, Token) == Success(legacy) && Read(fs, Token) == Success(MIGRATED_STUB)
    requires Read(before, SessionToken(sid)).Failure? && Read(fs, SessionToken(sid)).Failure?
    ensures Bearer(fs, sid) == Success(MIGRATED_STUB)
    ensures Bearer(fs, sid) == Bearer(before, sid) <==> TrimSpace(legacy) == MIGRATED_STUB
  {
    var s := MIGRATED_STUB;
    assert TrimLeft(s) == s && TrimRight(s) == s;
  }
}
