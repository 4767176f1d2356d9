/**
 The finalize-lock protocol of internal/portal/finalize: acquire (lock_acquire.go),
 patch (lock_patch.go), release (lock_release.go) and ship (mark_shipped.go), with the
 two other handlers that write a session's status, finalize and abandon
 (internal/portal/sessions/handler.go). Each handler reads first and writes later; any
 number of them interleave between those steps. Only the acquire transaction is atomic.
 */
module FinalizeLocks {
  import opened Wrappers
  import opened LockRows

  /** Thirty minutes, in nanoseconds. */
  const FINALIZE_LOCK_TTL := 1_800_000_000_000

  predicate IsLockExpired(lastActivity: int, now: int) {
    !(lastActivity > now) && now - lastActivity > FINALIZE_LOCK_TTL
  }

  /** The handler's idle check and the statement's cutoff draw the same line. */
  lemma ExpiredIsBelowCutoff(lastActivity: int, now: int)
    ensures IsLockExpired(lastActivity, now) <==> lastActivity < now - FINALIZE_LOCK_TTL
  {
  }

  /** A handler between a read and its next write. */
  datatype Call =
    | Opening(session: string, live: bool)                  // acquire has loaded the session; was its status active?
    | Acquiring(session: string, caller: string, override: bool, live: bool, now: int, seen: Option<string>, stale: bool)
    | Patching(id: string, caller: string, now: int)        // passed the checks
    | PatchExpiring(id: string, caller: string, now: int)   // read the lock as idle
    | Releasing(id: string, caller: string, now: int)
    | Checking(session: string, holder: string)             // row released, pointer not read yet
    | Clearing(session: string)                             // read the pointer as the released holder's
    | Shipping(session: string, pointer: Option<string>)    // loaded the session as finalizing
    | ShipEnded(session: string, pointer: Option<string>)   // wrote its status
    | ShipReleasing(id: string, now: int, pointer: Option<string>)
    | Promoting(session: string)                            // finalize has loaded the session as active
    | Abandoning(session: string)                           // abandon has loaded the session as not ended

  /** sessions.status; a session starts active. */
  datatype Status = Live | Finalizing | Ended

  /** pointer is sessions.finalize_locked_by_account_id. */
  datatype State = State(rows: Rows, pointer: map<string, string>, status: map<string, Status>, calls: map<nat, Call>)

  const Empty := State(map[], map[], map[], map[])

  function StatusOf(status: map<string, Status>, session: string): Status {
    if session in status then status[session] else Live
  }

  datatype Action =
    | SessionRead(call: nat, session: string)
    | AcquireRead(call: nat, session: string, caller: string, override: bool, now: int, seen: Option<string>)
    | AcquireCommit(call: nat, newId: string)
    | PatchRead(call: nat, id: string, caller: string, now: int)
    | PatchWrite(call: nat)
    | ReleaseRead(call: nat, id: string, caller: string, now: int)
    | ReleaseWrite(call: nat)
    | PointerRead(call: nat)
    | PointerClear(call: nat)
    | ShipRead(call: nat, session: string)
    | ShipEnd(call: nat)
    | ShipFind(call: nat, now: int, seen: Option<string>)
    | ShipWrite(call: nat)
    | FinalizeRead(call: nat, session: string)
    | FinalizeWrite(call: nat)
    | AbandonRead(call: nat, session: string)
    | AbandonWrite(call: nat)

  /** What GetActiveFinalizeLockForSession returns. */
  ghost predicate Found(rows: Rows, session: string, seen: Option<string>) {
    match seen
    case None => !HasActive(rows, session)
    case Some(id) =>
      && id in rows && Active(rows[id]) && rows[id].session == session
      && forall k | k in rows && Active(rows[k]) && rows[k].session == session :: rows[k].acquiredAt <= rows[id].acquiredAt
  }

  function Lookup(pointer: map<string, string>, session: string): Option<string> {
    if session in pointer then Some(pointer[session]) else None
  }

  ghost predicate Enabled(s: State, a: Action) {
    match a
    case SessionRead(c, _) => c !in s.calls
    case AcquireRead(c, session, _, _, _, seen) =>
      c in s.calls && s.calls[c].Opening? && s.calls[c].session == session && Found(s.rows, session, seen)
    case AcquireCommit(c, newId) => c in s.calls && s.calls[c].Acquiring? && newId !in s.rows
    case PatchRead(c, id, _, _) => c !in s.calls && id in s.rows
    case PatchWrite(c) => c in s.calls && (s.calls[c].Patching? || s.calls[c].PatchExpiring?)
    case ReleaseRead(c, id, _, _) => c !in s.calls && id in s.rows
    case ReleaseWrite(c) => c in s.calls && s.calls[c].Releasing?
    case PointerRead(c) => c in s.calls && s.calls[c].Checking?
    case PointerClear(c) => c in s.calls && s.calls[c].Clearing?
    case ShipRead(c, _) => c !in s.calls
    case ShipEnd(c) => c in s.calls && s.calls[c].Shipping?
    case ShipFind(c, _, seen) => c in s.calls && s.calls[c].ShipEnded? && Found(s.rows, s.calls[c].session, seen)
    case ShipWrite(c) => c in s.calls && s.calls[c].ShipReleasing?
    case FinalizeRead(c, _) => c !in s.calls
    case FinalizeWrite(c) => c in s.calls && s.calls[c].Promoting?
    case AbandonRead(c, _) => c !in s.calls
    case AbandonWrite(c) => c in s.calls && s.calls[c].Abandoning?
  }

  // ---------------------------------------------------------------------------
  // The acquire transaction
  // ---------------------------------------------------------------------------

  /** The rows after releasing the lock the caller saw; None when the stale release matched nothing. */
  function Vacated(rows: Rows, c: Call): Option<Rows>
    requires c.Acquiring?
  {
    if c.seen.None? then Some(rows)
    else if !c.stale then Some(Exec(rows, Release(c.seen.value, Some(c.now))))
    else
      var st := ReleaseIfStale(c.seen.value, Some(c.now), c.now - FINALIZE_LOCK_TTL);
      if Hits(rows, st) then Some(Exec(rows, st)) else None
  }

  function Fresh(c: Call): (lock: Lock)
    requires c.Acquiring?
    ensures Active(lock)
  {
    Lock(c.session, c.caller, c.now, c.now, None, None)
  }

  /** None is a rolled-back transaction. */
  function Committed(rows: Rows, c: Call, newId: string): Option<Rows>
    requires c.Acquiring?
  {
    var v := Vacated(rows, c);
    if v.None? then None
    else if !Accepts(v.value, Insert(newId, Fresh(c))) then None
    else
      var inserted := Exec(v.value, Insert(newId, Fresh(c)));
      if c.seen.Some? && !c.stale then Some(Exec(inserted, Supersede(c.seen.value, Some(newId)))) else Some(inserted)
  }

  // ---------------------------------------------------------------------------
  // Steps
  // ---------------------------------------------------------------------------

  function Done(s: State, c: nat): State {
    s.(calls := s.calls - {c})
  }

  function AcquireReadStep(s: State, a: Action): State
    requires a.AcquireRead? && (a.seen.Some? ==> a.seen.value in s.rows) && a.call in s.calls && s.calls[a.call].Opening?
  {
    var live := s.calls[a.call].live;
    if a.seen.None? then s.(calls := s.calls[a.call := Acquiring(a.session, a.caller, a.override, live, a.now, None, false)])
    else
      var lock := s.rows[a.seen.value];
      var expired := IsLockExpired(lock.lastActivity, a.now);
      if lock.holder == a.caller || (!expired && !a.override) then Done(s, a.call)
      else s.(calls := s.calls[a.call := Acquiring(a.session, a.caller, a.override, live, a.now, a.seen, expired)])
  }

  function AcquireCommitStep(s: State, c: nat, newId: string): State
    requires c in s.calls && s.calls[c].Acquiring?
  {
    var call := s.calls[c];
    var rows := Committed(s.rows, call, newId);
    if rows.None? then Done(s, c)
    else
      Done(s, c).(rows := rows.value,
                  pointer := s.pointer[call.session := call.caller],
                  status := if call.live then s.status[call.session := Finalizing] else s.status)
  }

  /** A patch with an invalid body is a read that changes nothing, like the refused reads here. */
  function PatchReadStep(s: State, a: Action): State
    requires a.PatchRead? && a.id in s.rows
  {
    var lock := s.rows[a.id];
    if lock.holder != a.caller || !Active(lock) then s
    else if IsLockExpired(lock.lastActivity, a.now) then s.(calls := s.calls[a.call := PatchExpiring(a.id, a.caller, a.now)])
    else s.(calls := s.calls[a.call := Patching(a.id, a.caller, a.now)])
  }

  function PatchWriteStep(s: State, c: nat): State
    requires c in s.calls && (s.calls[c].Patching? || s.calls[c].PatchExpiring?)
  {
    var call := s.calls[c];
    if call.Patching? then Done(s, c).(rows := Exec(s.rows, Touch(call.id, call.now)))
    else Done(s, c).(rows := Exec(s.rows, Release(call.id, Some(call.now))))
  }

  function ReleaseReadStep(s: State, a: Action): State
    requires a.ReleaseRead? && a.id in s.rows
  {
    var lock := s.rows[a.id];
    if lock.holder != a.caller || lock.releasedAt.Some? then s
    else s.(calls := s.calls[a.call := Releasing(a.id, a.caller, a.now)])
  }

  function ReleaseWriteStep(s: State, c: nat): State
    requires c in s.calls && s.calls[c].Releasing? && s.calls[c].id in s.rows
  {
    var call := s.calls[c];
    var lock := s.rows[call.id];
    s.(rows := Exec(s.rows, Release(call.id, Some(call.now))), calls := s.calls[c := Checking(lock.session, lock.holder)])
  }

  function PointerReadStep(s: State, c: nat): State
    requires c in s.calls && s.calls[c].Checking?
  {
    var call := s.calls[c];
    if Lookup(s.pointer, call.session) == Some(call.holder) then s.(calls := s.calls[c := Clearing(call.session)])
    else Done(s, c)
  }

  /** Only a finalizing session can be shipped. */
  function ShipReadStep(s: State, c: nat, session: string): State {
    if StatusOf(s.status, session) != Finalizing then s
    else s.(calls := s.calls[c := Shipping(session, Lookup(s.pointer, session))])
  }

  function ShipEndStep(s: State, c: nat): State
    requires c in s.calls && s.calls[c].Shipping?
  {
    var call := s.calls[c];
    s.(status := s.status[call.session := Ended], calls := s.calls[c := ShipEnded(call.session, call.pointer)])
  }

  function ShipFindStep(s: State, a: Action): State
    requires a.ShipFind? && a.call in s.calls && s.calls[a.call].ShipEnded?
  {
    if a.seen.None? then Done(s, a.call)
    else s.(calls := s.calls[a.call := ShipReleasing(a.seen.value, a.now, s.calls[a.call].pointer)])
  }

  function ShipWriteStep(s: State, c: nat): State
    requires c in s.calls && s.calls[c].ShipReleasing? && s.calls[c].id in s.rows
  {
    var call := s.calls[c];
    var lock := s.rows[call.id];
    var s1 := s.(rows := Exec(s.rows, Release(call.id, Some(call.now))));
    if call.pointer == Some(lock.holder) then s1.(calls := s.calls[c := Clearing(lock.session)]) else Done(s1, c)
  }

  /** Only an active session is finalized. */
  function FinalizeReadStep(s: State, c: nat, session: string): State {
    if StatusOf(s.status, session) != Live then s else s.(calls := s.calls[c := Promoting(session)])
  }

  /** Only a session that has not ended is abandoned. */
  function AbandonReadStep(s: State, c: nat, session: string): State {
    if StatusOf(s.status, session) == Ended then s else s.(calls := s.calls[c := Abandoning(session)])
  }

  /** The unguarded status update of both. */
  function StatusWriteStep(s: State, c: nat, status: Status): State
    requires c in s.calls && (s.calls[c].Promoting? || s.calls[c].Abandoning?)
  {
    Done(s, c).(status := s.status[s.calls[c].session := status])
  }

  /** One active lock a session; a superseded lock is released, and the lock that superseded it exists. */
  ghost predicate Sound(rows: Rows) {
    && OneActive(rows)
    && forall k | k in rows :: SoundRow(rows, rows[k])
  }

  predicate SoundRow(rows: Rows, l: Lock) {
    l.supersededBy.Some? ==> l.releasedAt.Some? && l.supersededBy.value in rows
  }

  ghost predicate Valid(s: State) {
    Sound(s.rows) && forall c | c in s.calls :: Grounded(s.rows, s.calls[c])
  }

  /** A handler's lock exists, and the handler may act on it: its holder, or another member who asked to override an unexpired lock. */
  predicate Grounded(rows: Rows, c: Call) {
    match c
    case Acquiring(session, caller, override, _, _, seen, stale) =>
      seen.Some? ==>
        && seen.value in rows && rows[seen.value].session == session
        && rows[seen.value].holder != caller && (stale || override)
    case Patching(id, caller, _) => id in rows && rows[id].holder == caller
    case PatchExpiring(id, caller, _) => id in rows && rows[id].holder == caller
    case Releasing(id, caller, _) => id in rows && rows[id].holder == caller
    case ShipReleasing(id, _, _) => id in rows
    case _ => true
  }

  ghost function Step(s: State, a: Action): State
    requires Valid(s) && Enabled(s, a)
  {
    match a
    case SessionRead(c, session) => s.(calls := s.calls[c := Opening(session, StatusOf(s.status, session) == Live)])
    case AcquireRead(_, _, _, _, _, _) => AcquireReadStep(s, a)
    case AcquireCommit(c, newId) => AcquireCommitStep(s, c, newId)
    case PatchRead(_, _, _, _) => PatchReadStep(s, a)
    case PatchWrite(c) => PatchWriteStep(s, c)
    case ReleaseRead(_, _, _, _) => ReleaseReadStep(s, a)
    case ReleaseWrite(c) => ReleaseWriteStep(s, c)
    case PointerRead(c) => PointerReadStep(s, c)
    case PointerClear(c) => Done(s, c).(pointer := s.pointer - {s.calls[c].session})
    case ShipRead(c, session) => ShipReadStep(s, c, session)
    case ShipEnd(c) => ShipEndStep(s, c)
    case ShipFind(_, _, _) => ShipFindStep(s, a)
    case ShipWrite(c) => ShipWriteStep(s, c)
    case FinalizeRead(c, session) => FinalizeReadStep(s, c, session)
    case FinalizeWrite(c) => StatusWriteStep(s, c, Finalizing)
    case AbandonRead(c, session) => AbandonReadStep(s, c, session)
    case AbandonWrite(c) => StatusWriteStep(s, c, Ended)
  }

  // ---------------------------------------------------------------------------
  // The rows under one statement
  // ---------------------------------------------------------------------------

  /** A release or a touch: rows stay sound, only the named row changes, and nothing comes back. */
  lemma {:induction false} ExecRows(rows: Rows, st: Statement)
    requires Sound(rows) && (st.Release? || st.ReleaseIfStale? || st.Touch?)
    requires st.Release? || st.ReleaseIfStale? ==> st.at.Some?
    ensures var rows' := Exec(rows, st);
            && rows' == Written(rows, st) && Sound(rows') && rows'.Keys == rows.Keys
            && (forall k | k in rows :: Kept(rows, rows', k))
            && (forall k | k in rows && k != st.id :: rows'[k] == rows[k])
            && (!st.Touch? ==> forall k | k in rows :: rows'[k].lastActivity == rows[k].lastActivity)
  {
    OnlyInsertsRefused(rows, st);
    var rows' := Written(rows, st);
    assert rows'.Keys == rows.Keys;
    forall k | k in rows' ensures SoundRow(rows', rows'[k]) {
      assert SoundRow(rows, rows[k]);
    }
  }

  /** A row keeps its session, its holder and its release stamp, and never comes back. */
  predicate Kept(rows: Rows, rows': Rows, k: string)
    requires k in rows
  {
    && k in rows' && rows'[k].session == rows[k].session && rows'[k].holder == rows[k].holder
    && (Active(rows'[k]) ==> Active(rows[k]))
    && (rows[k].releasedAt.Some? ==> rows'[k].releasedAt == rows[k].releasedAt)
  }

  // ---------------------------------------------------------------------------
  // The acquire transaction, against the rows at commit time
  // ---------------------------------------------------------------------------

  /** The caller may proceed on the rows as they are now, not as they were when it read them. */
  ghost predicate Takes(rows: Rows, c: Call)
    requires c.Acquiring?
  {
    match c.seen
    case None => !HasActive(rows, c.session)
    case Some(id) =>
      if c.stale then id in rows && Active(rows[id]) && IsLockExpired(rows[id].lastActivity, c.now)
      else forall k | k in rows && Active(rows[k]) && rows[k].session == c.session :: k == id
  }

  lemma {:induction false} VacatedRows(rows: Rows, c: Call)
    requires c.Acquiring? && Sound(rows) && Grounded(rows, c)
    ensures Vacated(rows, c).Some? ==>
              var v := Vacated(rows, c).value;
              && Sound(v) && v.Keys == rows.Keys && (forall k | k in rows :: Kept(rows, v, k))
              && (forall k | k in rows && c.seen != Some(k) :: v[k] == rows[k])
              && (c.seen.Some? ==> v[c.seen.value].releasedAt.Some?)
              && (forall k | k in rows :: v[k].lastActivity == rows[k].lastActivity && v[k].supersededBy == rows[k].supersededBy)
  {
    if c.seen.Some? {
      if c.stale {
        ExecRows(rows, ReleaseIfStale(c.seen.value, Some(c.now), c.now - FINALIZE_LOCK_TTL));
      } else {
        ExecRows(rows, Release(c.seen.value, Some(c.now)));
      }
    }
  }

  /** The transaction commits exactly when the caller may proceed on the current rows. */
  lemma {:induction false} CommitsIffTakes(rows: Rows, c: Call, newId: string)
    requires c.Acquiring? && Sound(rows) && Grounded(rows, c) && newId !in rows
    ensures Committed(rows, c, newId).Some? <==> Takes(rows, c)
  {
    VacatedRows(rows, c);
    if Vacated(rows, c).Some? {
      var v := Vacated(rows, c).value;
      InsertRefused(v, newId, Fresh(c));
      if HasActive(v, c.session) {
        var k :| k in v && Active(v[k]) && v[k].session == c.session;
        assert k in rows && Kept(rows, v, k) && c.seen != Some(k);
        assert v[k] == rows[k];
      } else if c.seen.Some? {
        forall k | k in rows && Active(rows[k]) && rows[k].session == c.session ensures c.seen == Some(k) {
          assert k in v;
        }
      }
    }
    if c.seen.Some? && c.stale {
      ExpiredIsBelowCutoff(rows[c.seen.value].lastActivity, c.now);
      assert SoundRow(rows, rows[c.seen.value]);
    }
  }

  /** The committed rows in one expression: the vacated ones, the new lock, and the mark of an override. */
  lemma {:induction false} CommittedIs(rows: Rows, c: Call, newId: string)
    requires c.Acquiring? && Sound(rows) && Grounded(rows, c) && newId !in rows && Committed(rows, c, newId).Some?
    ensures var v, rows' := Vacated(rows, c), Committed(rows, c, newId).value;
            && v.Some? && OneActive(rows')
            && rows' == (if c.seen.Some? && !c.stale && c.seen.value in v.value
                         then v.value[newId := Fresh(c)][c.seen.value := v.value[c.seen.value].(supersededBy := Some(newId))]
                         else v.value[newId := Fresh(c)])
  {
    VacatedRows(rows, c);
    var inserted := Exec(Vacated(rows, c).value, Insert(newId, Fresh(c)));
    if c.seen.Some? && !c.stale {
      OnlyInsertsRefused(inserted, Supersede(c.seen.value, Some(newId)));
    }
    hide Vacated, SoundRow;
  }

  /** The keys and the soundness of the committed rows. */
  lemma {:induction false} CommitSound(rows: Rows, c: Call, newId: string)
    requires c.Acquiring? && Sound(rows) && Grounded(rows, c) && newId !in rows && Committed(rows, c, newId).Some?
    ensures var rows' := Committed(rows, c, newId).value;
            Sound(rows') && rows'.Keys == rows.Keys + {newId}
  {
    VacatedRows(rows, c);
    CommittedIs(rows, c, newId);
    hide Committed, Vacated, OneActive, Exec, Kept;
    var v := Vacated(rows, c).value;
    var rows' := Committed(rows, c, newId).value;
    assert rows'.Keys == rows.Keys + {newId};
    forall k | k in rows' ensures SoundRow(rows', rows'[k]) {
      if k != newId {
        assert SoundRow(v, v[k]);
      }
    }
  }

  /**
   A committed acquire adds one active lock held by the caller and ends no lock but the
   one the caller read; every other row is untouched.
   */
  lemma {:induction false} CommitTouchesOnlySeen(rows: Rows, c: Call, newId: string)
    requires c.Acquiring? && Sound(rows) && Grounded(rows, c) && newId !in rows && Committed(rows, c, newId).Some?
    ensures var rows' := Committed(rows, c, newId).value;
            && Sound(rows') && rows'.Keys == rows.Keys + {newId} && rows'[newId] == Fresh(c)
            && (forall k | k in rows && c.seen != Some(k) :: rows'[k] == rows[k])
            && (forall k | k in rows :: Kept(rows, rows', k) && rows'[k].lastActivity == rows[k].lastActivity)
            && (c.seen.Some? ==> rows'[c.seen.value].supersededBy ==
                                 if c.stale then rows[c.seen.value].supersededBy else Some(newId))
  {
    VacatedRows(rows, c);
    CommittedIs(rows, c, newId);
    CommitSound(rows, c, newId);
    hide Committed, Vacated, Sound, Exec, Kept, Grounded;
    var v, rows' := Vacated(rows, c).value, Committed(rows, c, newId).value;
    forall k | k in rows ensures Kept(rows, rows', k) {
      CommitKeeps(rows, v, rows', k);
    }
  }

  lemma CommitKeeps(rows: Rows, v: Rows, rows': Rows, k: string)
    requires k in rows && Kept(rows, v, k) && k in rows'
    requires rows'[k] == v[k] || (rows'[k] == v[k].(supersededBy := rows'[k].supersededBy) && v[k].releasedAt.Some?)
    ensures Kept(rows, rows', k)
  {
  }

  /** The transaction's closure: release what was seen, insert, mark. A failing step rolls everything back. */
  method AcquireTx(t: Table, c: Call, newId: string) returns (won: bool)
    requires c.Acquiring? && Sound(t.rows) && Grounded(t.rows, c) && newId !in t.rows
    modifies t
    ensures Sound(t.rows)
    ensures won <==> Takes(old(t.rows), c)
    ensures !won ==> t.rows == old(t.rows)
    ensures won ==> Committed(old(t.rows), c, newId) == Some(t.rows)
  {
    var before := t.rows;
    CommitsIffTakes(before, c, newId);
    VacatedRows(before, c);
    if c.seen.Some? {
      if c.stale {
        var affected := t.ReleaseFinalizeLockIfStale(c.seen.value, c.now, c.now - FINALIZE_LOCK_TTL);
        OnlyInsertsRefused(before, ReleaseIfStale(c.seen.value, Some(c.now), c.now - FINALIZE_LOCK_TTL));
        if affected == 0 {
          return false;
        }
      } else {
        t.ReleaseFinalizeLock(c.seen.value, c.now);
      }
    }
    assert Vacated(before, c) == Some(t.rows);
    InsertRefused(t.rows, newId, Fresh(c));
    var ok := t.InsertFinalizeLock(newId, Lock(c.session, c.caller, c.now, c.now, None, None));
    if !ok {
      t.rows := before;
      return false;
    }
    CommitTouchesOnlySeen(before, c, newId);
    if c.seen.Some? && !c.stale {
      t.SupersedeFinalizeLock(c.seen.value, newId);
    }
    return true;
  }
}
