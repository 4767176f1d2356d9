/**
 The finalize_locks table (internal/db/pgstore/finalize_locks.sql.go) and its partial
 unique index: the statements, what a row's columns mean after any sequence of them,
 and which statement the index can refuse.
 */
module LockRows {
  import opened Wrappers

  datatype Lock = Lock(
    session: string, holder: string, acquiredAt: int, lastActivity: int,
    supersededBy: Option<string>, releasedAt: Option<int>)

  type Rows = map<string, Lock>

  predicate Active(l: Lock) {
    l.supersededBy.None? && l.releasedAt.None?
  }

  predicate HasActive(rows: Rows, session: string) {
    exists k | k in rows :: Active(rows[k]) && rows[k].session == session
  }

  /** The rows of the partial unique index: one active lock per session. */
  predicate OneActive(rows: Rows) {
    forall a, b | a in rows && b in rows ::
      Active(rows[a]) && Active(rows[b]) && rows[a].session == rows[b].session ==> a == b
  }

  /** Nullable arguments as the generated code takes them. Touch is also what a curation update does to the activity. */
  datatype Statement =
    | Insert(id: string, lock: Lock)
    | Release(id: string, at: Option<int>)
    | ReleaseIfStale(id: string, at: Option<int>, cutoff: int)
    | Supersede(id: string, winner: Option<string>)
    | Touch(id: string, activity: int)

  /** The WHERE clause matches a row. */
  predicate Hits(rows: Rows, st: Statement) {
    match st
    case Insert(id, _) => true
    case Release(id, _) => id in rows && rows[id].releasedAt.None?
    case ReleaseIfStale(id, _, cutoff) => id in rows && rows[id].releasedAt.None? && rows[id].lastActivity < cutoff
    case Supersede(id, _) => id in rows
    case Touch(id, _) => id in rows
  }

  function Written(rows: Rows, st: Statement): Rows {
    if !Hits(rows, st) then rows else
      match st
      case Insert(id, lock) => rows[id := lock]
      case Release(id, at) => rows[id := rows[id].(releasedAt := at)]
      case ReleaseIfStale(id, at, _) => rows[id := rows[id].(releasedAt := at)]
      case Supersede(id, winner) => rows[id := rows[id].(supersededBy := winner)]
      case Touch(id, activity) => rows[id := rows[id].(lastActivity := activity)]
  }

  /** The primary key and the unique index both let the statement through. */
  predicate Accepts(rows: Rows, st: Statement) {
    (st.Insert? ==> st.id !in rows) && OneActive(Written(rows, st))
  }

  function Exec(rows: Rows, st: Statement): Rows {
    if Accepts(rows, st) then Written(rows, st) else rows
  }

  function RowsAfter(rows: Rows, run: seq<Statement>): Rows {
    if run == [] then rows else Exec(RowsAfter(rows, run[..|run| - 1]), run[|run| - 1])
  }

  // ---------------------------------------------------------------------------
  // The index
  // ---------------------------------------------------------------------------

  /** An insert is refused exactly when its id is taken or its session already has an active lock. */
  lemma {:induction false} InsertRefused(rows: Rows, id: string, lock: Lock)
    requires OneActive(rows) && Active(lock)
    ensures Accepts(rows, Insert(id, lock)) <==> id !in rows && !HasActive(rows, lock.session)
  {
    var rows' := Written(rows, Insert(id, lock));
    if id !in rows && HasActive(rows, lock.session) {
      var k :| k in rows && Active(rows[k]) && rows[k].session == lock.session;
      assert k in rows' && rows'[k] == rows[k] && k != id;
      assert rows'[id] == lock;
    }
  }

  /** No other statement is ever refused, unless it puts a superseded row back with a null. */
  lemma {:induction false} OnlyInsertsRefused(rows: Rows, st: Statement)
    requires OneActive(rows) && !st.Insert?
    requires st.Supersede? ==> st.winner.Some?
    ensures Accepts(rows, st)
  {
    var rows' := Written(rows, st);
    forall a, b | a in rows' && b in rows' && Active(rows'[a]) && Active(rows'[b]) && rows'[a].session == rows'[b].session
      ensures a == b
    {
      assert Active(rows[a]) && Active(rows[b]) && rows[a].session == rows[b].session;
    }
  }

  lemma {:induction false} OneActiveAlways(rows: Rows, run: seq<Statement>)
    requires OneActive(rows)
    ensures OneActive(RowsAfter(rows, run))
  {
    if run != [] {
      OneActiveAlways(rows, run[..|run| - 1]);
    }
  }

  // ---------------------------------------------------------------------------
  // A lock that leaves the active set
  // ---------------------------------------------------------------------------

  /** A null supersede on a lock that was superseded but never released. */
  predicate Revives(rows: Rows, st: Statement) {
    st.Supersede? && st.winner.None? && st.id in rows && rows[st.id].supersededBy.Some? && rows[st.id].releasedAt.None?
  }

  /** An inactive row becomes active again exactly when a reviving statement hits it and the index accepts that. */
  lemma {:induction false} EndedRowStep(rows: Rows, st: Statement, id: string)
    requires id in rows && !Active(rows[id])
    ensures id in Exec(rows, st)
    ensures Active(Exec(rows, st)[id]) <==> Revives(rows, st) && st.id == id && Accepts(rows, st)
  {
    assert Exec(rows, st) == rows || Exec(rows, st) == Written(rows, st);
  }

  ghost predicate NonNull(run: seq<Statement>) {
    forall k | 0 <= k < |run| :: run[k].Supersede? ==> run[k].winner.Some?
  }

  /** With non-null supersede arguments, a lock that left the active set never re-enters it. */
  lemma {:induction false} EndedForGood(rows: Rows, run: seq<Statement>, id: string)
    requires id in rows && !Active(rows[id]) && NonNull(run)
    ensures id in RowsAfter(rows, run) && !Active(RowsAfter(rows, run)[id])
  {
    if run != [] {
      var init, last := run[..|run| - 1], run[|run| - 1];
      assert forall k | 0 <= k < |init| :: init[k] == run[k];
      EndedForGood(rows, init, id);
      EndedRowStep(RowsAfter(rows, init), last, id);
    }
  }

  /** A null supersede does bring a lock back. */
  lemma {:induction false} NullSupersedeWitness(lock: Lock)
    requires Active(lock)
    ensures var rows: Rows := map["a" := lock.(supersededBy := Some("b"))];
            !Active(rows["a"]) && Active(Exec(rows, Supersede("a", None))["a"])
  {
    var rows: Rows := map["a" := lock.(supersededBy := Some("b"))];
    EndedRowStep(rows, Supersede("a", None), "a");
    assert Written(rows, Supersede("a", None)).Keys == {"a"};
  }

  // ---------------------------------------------------------------------------
  // The stale release sees the latest activity
  // ---------------------------------------------------------------------------

  /** Statement k of a run on the empty table took effect and set the activity of id. */
  ghost predicate WritesActivity(run: seq<Statement>, k: nat, id: string)
    requires k < |run|
  {
    var before := RowsAfter(map[], run[..k]);
    && run[k].id == id && (run[k].Touch? || run[k].Insert?)
    && Accepts(before, run[k]) && Hits(before, run[k])
  }

  function ActivityOf(st: Statement): int
    requires st.Touch? || st.Insert?
  {
    if st.Touch? then st.activity else st.lock.lastActivity
  }

  ghost predicate LastActivityWrite(run: seq<Statement>, k: nat, id: string)
    requires k < |run|
  {
    WritesActivity(run, k, id) && forall j: nat | k < j < |run| :: !WritesActivity(run, j, id)
  }

  /** A row's activity is the one the last effective write gave it. */
  lemma {:induction false} ActivityIsLatest(run: seq<Statement>, id: string) returns (k: nat)
    requires id in RowsAfter(map[], run)
    ensures k < |run| && LastActivityWrite(run, k, id) && RowsAfter(map[], run)[id].lastActivity == ActivityOf(run[k])
  {
    var n := |run| - 1;
    var init, last := run[..n], run[n];
    var before := RowsAfter(map[], init);
    if WritesActivity(run, n, id) {
      k := n;
    } else {
      k := ActivityIsLatest(init, id);
      forall j: nat | j < n ensures WritesActivity(run, j, id) <==> WritesActivity(init, j, id) {
        assert run[..j] == init[..j];
      }
      if last.Touch? && last.id == id {
        OneActiveAlways(map[], init);
        OnlyInsertsRefused(before, last);
      }
    }
  }

  /**
   After any sequence of statements: a stale release takes effect exactly when the lock
   is unreleased and the activity that was written last is older than the cutoff.
   */
  lemma {:induction false} StaleReleaseSeesLatest(run: seq<Statement>, k: nat, id: string, at: int, cutoff: int)
    requires id in RowsAfter(map[], run) && k < |run| && LastActivityWrite(run, k, id)
    ensures var rows := RowsAfter(map[], run);
            Exec(rows, ReleaseIfStale(id, Some(at), cutoff)) != rows
            <==> rows[id].releasedAt.None? && ActivityOf(run[k]) < cutoff
  {
    var rows := RowsAfter(map[], run);
    var k' := ActivityIsLatest(run, id);
    assert k == k';
    var st := ReleaseIfStale(id, Some(at), cutoff);
    OneActiveAlways(map[], run);
    OnlyInsertsRefused(rows, st);
    if Hits(rows, st) {
      assert Exec(rows, st)[id].releasedAt != rows[id].releasedAt;
    }
  }

  // ---------------------------------------------------------------------------
  // The table
  // ---------------------------------------------------------------------------

  class Table {
    var rows: Rows

    ghost predicate Valid()
      reads this
    {
      OneActive(rows)
    }

    constructor ()
      ensures Valid() && rows == map[]
    {
      rows := map[];
    }

    /** False is the unique violation. */
    method InsertFinalizeLock(id: string, lock: Lock) returns (ok: bool)
      requires Valid() && Active(lock)
      modifies this
      ensures Valid() && rows == Exec(old(rows), Insert(id, lock))
      ensures ok <==> id !in old(rows) && !HasActive(old(rows), lock.session)
    {
      InsertRefused(rows, id, lock);
      if id in rows || HasActive(rows, lock.session) {
        return false;
      }
      rows := rows[id := lock];
      return true;
    }

    method ReleaseFinalizeLock(id: string, at: int)
      requires Valid()
      modifies this
      ensures Valid() && rows == Exec(old(rows), Release(id, Some(at)))
      ensures id in rows ==> !Active(rows[id])
    {
      OnlyInsertsRefused(rows, Release(id, Some(at)));
      if id in rows && rows[id].releasedAt.None? {
        rows := rows[id := rows[id].(releasedAt := Some(at))];
      }
    }

    method ReleaseFinalizeLockIfStale(id: string, at: int, cutoff: int) returns (affected: nat)
      requires Valid()
      modifies this
      ensures Valid() && rows == Exec(old(rows), ReleaseIfStale(id, Some(at), cutoff))
      ensures affected == if rows == old(rows) then 0 else 1
    {
      OnlyInsertsRefused(rows, ReleaseIfStale(id, Some(at), cutoff));
      if id in rows && rows[id].releasedAt.None? && rows[id].lastActivity < cutoff {
        rows := rows[id := rows[id].(releasedAt := Some(at))];
        assert rows[id] != old(rows)[id];
        return 1;
      }
      return 0;
    }

    method SupersedeFinalizeLock(id: string, winner: string)
      requires Valid()
      modifies this
      ensures Valid() && rows == Exec(old(rows), Supersede(id, Some(winner)))
      ensures id in rows ==> !Active(rows[id])
    {
      OnlyInsertsRefused(rows, Supersede(id, Some(winner)));
      if id in rows {
        rows := rows[id := rows[id].(supersededBy := Some(winner))];
      }
    }

    method TouchFinalizeLock(id: string, activity: int)
      requires Valid()
      modifies this
      ensures Valid() && rows == Exec(old(rows), Touch(id, activity))
    {
      OnlyInsertsRefused(rows, Touch(id, activity));
      if id in rows {
        rows := rows[id := rows[id].(lastActivity := activity)];
      }
    }
  }
}
