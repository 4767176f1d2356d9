/**
 The turn-start digest: the portal's answer (internal/portal/sessions/state.go) and
 the cursor file the hook keeps (cmd/jamsesh/hooks/userpromptsubmit.go).
 */
module DigestCursor {
  import opened Wrappers
  import opened EventLog
  import opened EventStore

  const DIGEST_TYPES: set<string> := {
    "commit.arrived", "comment.added", "comment.resolved",
    "conflict.detected", "conflict.resolved", "mode.changed"
  }

  const DIGEST_LIMIT: nat := 500

  function Listed(log: map<nat, string>, since: nat): seq<nat> {
    ListSince(log, Some(DIGEST_TYPES), since, DIGEST_LIMIT)
  }

  /** GetSessionDigest's loop: the largest seq seen, or `since` when there is none. */
  method NextCursor(since: nat, items: seq<nat>) returns (cursor: nat)
    ensures since <= cursor && (forall q | q in items :: q <= cursor)
    ensures cursor == since || cursor in items
  {
    cursor := since;
    for i := 0 to |items|
      invariant since <= cursor && (cursor == since || cursor in items)
      invariant forall j | 0 <= j < i :: items[j] <= cursor
    {
      if items[i] > cursor {
        cursor := items[i];
      }
    }
  }

  /** The same value as a function: digest items ascend past `since`. */
  function CursorAfter(log: map<nat, string>, since: nat): (cursor: nat)
    ensures since <= cursor && forall q | q in Listed(log, since) :: q <= cursor
    ensures cursor == since || cursor in Listed(log, since)
  {
    var items := Listed(log, since);
    if items == [] then since else
      assert items[|items| - 1] in items;
      items[|items| - 1]
  }

  // ---------------------------------------------------------------------------
  // The hook's cursor file
  // ---------------------------------------------------------------------------

  datatype CursorFile = Missing | Corrupt | Saved(value: nat)

  /** readLastSeq: a missing or corrupt file reads as 0. */
  function ReadLastSeq(file: CursorFile): nat {
    if file.Saved? then file.value else 0
  }

  class PromptHook {
    var file: CursorFile

    constructor (file: CursorFile)
      ensures this.file == file
    {
      this.file := file;
    }

    /** Steps 3 to 5 of the hook. `fetched` and `written` say whether the request and the file write succeed. */
    method FetchDigest(log: map<nat, string>, fetched: bool, written: bool) returns (shown: seq<nat>)
      modifies this
      ensures shown == if fetched then Listed(log, ReadLastSeq(old(file))) else []
      ensures file == if fetched && written then Saved(CursorAfter(log, ReadLastSeq(old(file)))) else old(file)
    {
      var lastSeq := ReadLastSeq(file);
      shown := [];
      if fetched {
        shown := Listed(log, lastSeq);
        var cursor := NextCursor(lastSeq, shown);
        assert cursor == CursorAfter(log, lastSeq);
        if written {
          file := Saved(cursor);
        }
      }
    }
  }

  /** One session: its visible log, the hook's file, and every event a digest has shown. */
  datatype State = State(log: map<nat, string>, next: nat, file: CursorFile, shown: set<nat>)

  datatype Action =
    | Emit(typ: string)
    | Hook(fetched: bool, written: bool)
    | Damage(to: CursorFile)

  const INIT: State := State(map[], 0, Missing, {})

  predicate Enabled(a: Action) {
    a.Damage? ==> !a.to.Saved?
  }

  function Step(s: State, a: Action): State {
    match a
    case Emit(typ) => s.(log := s.log[s.next + 1 := typ], next := s.next + 1)
    case Hook(fetched, written) =>
      var since := ReadLastSeq(s.file);
      if !fetched then s else
        s.(shown := s.shown + (set q | q in Listed(s.log, since)),
           file := if written then Saved(CursorAfter(s.log, since)) else s.file)
    case Damage(to) => s.(file := to)
  }

  /** Every digest event the persisted cursor has passed was shown. */
  ghost predicate NothingSkipped(s: State) {
    forall q | q in s.log && s.log[q] in DIGEST_TYPES && q <= ReadLastSeq(s.file) :: q in s.shown
  }

  ghost predicate Sound(s: State) {
    Exactly(s.log, s.next) && ReadLastSeq(s.file) <= s.next && NothingSkipped(s)
  }

  lemma {:induction false} HookSound(s: State, a: Action)
    requires Sound(s) && a.Hook?
    ensures Sound(Step(s, a))
  {
    var since, s' := ReadLastSeq(s.file), Step(s, a);
    var items, cursor := Listed(s.log, since), CursorAfter(s.log, since);
    if a.fetched {
      forall q | q in s.log && s.log[q] in DIGEST_TYPES && q <= cursor ensures q in s'.shown {
        if q > since {
          assert q in Matching(s.log, Some(DIGEST_TYPES), since);
          assert cursor in items;
        }
      }
      assert cursor <= s.next by {
        assert cursor == since || cursor in Matching(s.log, Some(DIGEST_TYPES), since);
      }
    }
  }

  function After(s: State, run: seq<Action>): State
    decreases |run|
  {
    if run == [] then s else After(Step(s, run[0]), run[1..])
  }

  lemma {:induction false} SoundFrom(s: State, run: seq<Action>)
    requires Sound(s) && forall i | 0 <= i < |run| :: Enabled(run[i])
    ensures Sound(After(s, run))
    decreases |run|
  {
    if run != [] {
      if run[0].Hook? {
        HookSound(s, run[0]);
      }
      SoundFrom(Step(s, run[0]), run[1..]);
    }
  }

  /** Over any mix of emissions, failed fetches, failed writes and damaged files, no digest event is skipped. */
  lemma {:induction false} DigestNeverSkips(run: seq<Action>)
    requires forall i | 0 <= i < |run| :: Enabled(run[i])
    ensures NothingSkipped(After(INIT, run))
  {
    SoundFrom(INIT, run);
  }

  /** A hook run that gets through shows everything pending, unless more than a digest's worth is. */
  lemma {:induction false} HookCatchesUp(s: State)
    requires Sound(s) && |Matching(s.log, Some(DIGEST_TYPES), ReadLastSeq(s.file))| <= DIGEST_LIMIT
    ensures var s' := Step(s, Hook(true, true));
            forall q | q in s.log && s.log[q] in DIGEST_TYPES :: q in s'.shown
  {
    var since := ReadLastSeq(s.file);
    forall q | q in s.log && s.log[q] in DIGEST_TYPES ensures q in Step(s, Hook(true, true)).shown {
      if q > since {
        assert q in Matching(s.log, Some(DIGEST_TYPES), since);
        assert q in Listed(s.log, since);
      }
    }
  }

  /**
   An event that becomes visible at an arbitrary unused number is never skipped if
   and only if its number is past the cursor or it is no digest event: the order in
   which commits become visible is what the cursor relies on.
   */
  lemma {:induction false} VisibleInOrderNeeded(s: State, q: nat, typ: string)
    requires NothingSkipped(s) && q !in s.log && q !in s.shown
    ensures NothingSkipped(s.(log := s.log[q := typ])) <==> q > ReadLastSeq(s.file) || typ !in DIGEST_TYPES
  {
    var s' := s.(log := s.log[q := typ]);
    assert s'.log[q] == typ;
    if q > ReadLastSeq(s.file) || typ !in DIGEST_TYPES {
      forall p | p in s'.log && s'.log[p] in DIGEST_TYPES && p <= ReadLastSeq(s'.file) ensures p in s'.shown {
        assert p != q;
      }
    }
  }
}
