/**
 The per-session event log: sequence allocation under concurrent transactions
 (internal/db/pgstore/events.sql.go driven by internal/portal/events/log.go).

 An emitting transaction ensures the event_seq row, allocates n numbers, inserts n
 events and commits; it can fail and roll back anywhere. The row it updated (or
 inserted) stays locked until then. Statements of different transactions interleave
 freely up to that lock.
 */
module EventLog {
  import opened Wrappers

  datatype Phase =
    | Started
    | Ensured
    | Allocated(last: nat, inserted: nat)

  /** One transaction emitting `types` into `sid`; `row` is its own version of a row it locked. */
  datatype Tx = Tx(sid: string, types: seq<string>, row: Option<nat>, phase: Phase)

  /** Committed rows, the transactions in progress, and per session the blocks committed so far. */
  datatype Db = Db(
    next: map<string, nat>,
    events: map<string, map<nat, string>>,
    txs: map<nat, Tx>,
    blocks: map<string, seq<(nat, nat)>>)

  const EMPTY: Db := Db(map[], map[], map[], map[])

  datatype Statement =
    | Begin(tx: nat, sid: string, types: seq<string>)
    | EnsureRow(tx: nat)
    | Allocate(tx: nat)
    | Insert(tx: nat)
    | Commit(tx: nat)
    | Rollback(tx: nat)

  function Next(db: Db, sid: string): nat {
    if sid in db.next then db.next[sid] else 0
  }

  function Events(db: Db, sid: string): map<nat, string> {
    if sid in db.events then db.events[sid] else map[]
  }

  function Blocks(db: Db, sid: string): seq<(nat, nat)> {
    if sid in db.blocks then db.blocks[sid] else []
  }

  /** No other transaction has the session's event_seq row locked. */
  ghost predicate RowFree(db: Db, tx: nat) {
    tx in db.txs && forall u | u in db.txs && u != tx && db.txs[u].sid == db.txs[tx].sid :: db.txs[u].row.None?
  }

  /** The statement can execute now; one that would wait for a lock cannot. */
  ghost predicate Enabled(db: Db, st: Statement) {
    match st
    case Begin(tx, _, types) => tx !in db.txs && types != []
    case EnsureRow(tx) =>
      tx in db.txs && db.txs[tx].phase.Started? && (db.txs[tx].sid in db.next || RowFree(db, tx))
    case Allocate(tx) => tx in db.txs && db.txs[tx].phase.Ensured? && RowFree(db, tx)
    case Insert(tx) =>
      tx in db.txs && db.txs[tx].phase.Allocated? && db.txs[tx].phase.inserted < |db.txs[tx].types|
    case Commit(tx) =>
      tx in db.txs && db.txs[tx].phase.Allocated? && db.txs[tx].phase.inserted == |db.txs[tx].types|
    case Rollback(tx) => tx in db.txs
  }

  /** Drafts numbered upwards from `first`. */
  function Numbered(first: nat, types: seq<string>): (m: map<nat, string>)
    ensures forall q: nat :: q in m <==> first <= q < first + |types|
    ensures forall q | q in m :: m[q] == types[q - first]
  {
    if types == [] then map[] else
      var n := |types| - 1;
      Numbered(first, types[..n])[first + n := types[n]]
  }

  lemma {:induction false} NumberedGrows(first: nat, types: seq<string>, i: nat)
    requires i < |types|
    ensures Numbered(first, types[..i + 1]) == Numbered(first, types[..i])[first + i := types[i]]
  {
    assert types[..i + 1][..i] == types[..i];
  }

  /** The events a transaction has inserted so far. */
  function Pending(t: Tx): map<nat, string>
    requires t.phase.Allocated? && t.phase.inserted <= |t.types| <= t.phase.last
  {
    Numbered(t.phase.last - |t.types| + 1, t.types[..t.phase.inserted])
  }

  ghost predicate TxFits(t: Tx) {
    t.types != [] && (t.phase.Allocated? ==> t.phase.inserted <= |t.types| <= t.phase.last)
  }

  ghost predicate Valid(db: Db) {
    forall tx | tx in db.txs :: TxFits(db.txs[tx])
  }

  /** UPDATE event_seq SET next = next + n RETURNING next, on the version the transaction sees. */
  function AllocateStep(db: Db, tx: nat): (db': Db)
    requires Valid(db) && tx in db.txs
    ensures Valid(db')
  {
    var t := db.txs[tx];
    var seen := if t.row.Some? then t.row.value else Next(db, t.sid);
    var last := seen + |t.types|;
    db.(txs := db.txs[tx := t.(row := Some(last), phase := Allocated(last, 0))])
  }

  function CommitStep(db: Db, tx: nat): (db': Db)
    requires Valid(db) && tx in db.txs && db.txs[tx].phase.Allocated?
    ensures Valid(db')
  {
    var t := db.txs[tx];
    db.(next := db.next[t.sid := t.phase.last],
        events := db.events[t.sid := Events(db, t.sid) + Pending(t)],
        txs := db.txs - {tx},
        blocks := db.blocks[t.sid := Blocks(db, t.sid) + [(t.phase.last - |t.types| + 1, t.phase.last)]])
  }

  ghost function Step(db: Db, st: Statement): (db': Db)
    requires Valid(db) && Enabled(db, st)
    ensures Valid(db')
  {
    match st
    case Begin(tx, sid, types) => db.(txs := db.txs[tx := Tx(sid, types, None, Started)])
    case EnsureRow(tx) =>
      var t := db.txs[tx];
      db.(txs := db.txs[tx := t.(phase := Ensured, row := if t.sid in db.next then t.row else Some(0))])
    case Allocate(tx) => AllocateStep(db, tx)
    case Insert(tx) =>
      var t := db.txs[tx];
      db.(txs := db.txs[tx := t.(phase := t.phase.(inserted := t.phase.inserted + 1))])
    case Commit(tx) => CommitStep(db, tx)
    case Rollback(tx) => db.(txs := db.txs - {tx})
  }

  // ---------------------------------------------------------------------------
  // Gapless and collision-free
  // ---------------------------------------------------------------------------

  /** Blocks laid end to end from 1 to `next`. */
  ghost predicate Tiles(blocks: seq<(nat, nat)>, next: nat)
    decreases |blocks|
  {
    if blocks == [] then next == 0 else
      var (first, last) := blocks[|blocks| - 1];
      1 <= first <= last == next && Tiles(blocks[..|blocks| - 1], first - 1)
  }

  ghost predicate Locked(db: Db, t: Tx) {
    match t.phase
    case Started => t.row.None?
    case Ensured => t.row.None? || (t.row == Some(0) && Next(db, t.sid) == 0)
    case Allocated(last, _) => t.row == Some(last) && last == Next(db, t.sid) + |t.types|
  }

  /** The seqs of a session's visible events are exactly 1..next. */
  ghost predicate Exactly(events: map<nat, string>, next: nat) {
    forall q: nat :: q in events <==> 1 <= q <= next
  }

  ghost predicate SessionGapless(db: Db, sid: string) {
    Exactly(Events(db, sid), Next(db, sid)) && Tiles(Blocks(db, sid), Next(db, sid))
  }

  ghost predicate Gapless(db: Db)
    requires Valid(db)
  {
    && (forall sid: string :: SessionGapless(db, sid))
    && (forall tx | tx in db.txs :: Locked(db, db.txs[tx]))
    && (forall tx, u | tx in db.txs && u in db.txs && tx != u && db.txs[tx].sid == db.txs[u].sid ::
          db.txs[tx].row.None? || db.txs[u].row.None?)
  }

  lemma {:induction false} ExactlyGrows(events: map<nat, string>, next: nat, types: seq<string>)
    requires Exactly(events, next)
    ensures Exactly(events + Numbered(next + 1, types), next + |types|)
  {
  }

  lemma {:induction false} TilesGrow(blocks: seq<(nat, nat)>, next: nat, n: nat)
    requires Tiles(blocks, next) && n >= 1
    ensures Tiles(blocks + [(next + 1, next + n)], next + n)
  {
    assert (blocks + [(next + 1, next + n)])[..|blocks|] == blocks;
  }

  lemma {:induction false} CommitSession(db: Db, tx: nat)
    requires Valid(db) && Gapless(db) && Enabled(db, Commit(tx))
    ensures SessionGapless(CommitStep(db, tx), db.txs[tx].sid)
  {
    var t := db.txs[tx];
    assert Locked(db, t) && SessionGapless(db, t.sid);
    assert t.types[..t.phase.inserted] == t.types;
    ExactlyGrows(Events(db, t.sid), Next(db, t.sid), t.types);
    TilesGrow(Blocks(db, t.sid), Next(db, t.sid), |t.types|);
  }

  lemma {:induction false} CommitGapless(db: Db, tx: nat)
    requires Valid(db) && Gapless(db) && Enabled(db, Commit(tx))
    ensures Gapless(CommitStep(db, tx))
  {
    var t, db' := db.txs[tx], CommitStep(db, tx);
    forall sid: string ensures SessionGapless(db', sid) {
      if sid == t.sid {
        CommitSession(db, tx);
      } else {
        assert SessionGapless(db, sid);
      }
    }
    assert t.row.Some? by { assert Locked(db, t); }
    forall u | u in db'.txs ensures Locked(db', db'.txs[u]) {
      assert Locked(db, db.txs[u]);
    }
  }

  /** A statement that only changes its own transaction, within the lock it holds. */
  lemma {:induction false} OwnTxGapless(db: Db, db': Db, tx: nat)
    requires Valid(db) && Gapless(db) && Valid(db')
    requires db'.next == db.next && db'.events == db.events && db'.blocks == db.blocks
    requires forall u | u in db'.txs && u != tx :: u in db.txs && db'.txs[u] == db.txs[u]
    requires tx in db'.txs ==> Locked(db, db'.txs[tx])
    requires tx in db'.txs && db'.txs[tx].row.Some? ==>
               forall u | u in db.txs && u != tx && db.txs[u].sid == db'.txs[tx].sid :: db.txs[u].row.None?
    ensures Gapless(db')
  {
    forall sid: string ensures SessionGapless(db', sid) {
      assert SessionGapless(db, sid);
    }
    forall u | u in db'.txs ensures Locked(db', db'.txs[u]) {
      assert u != tx ==> Locked(db, db.txs[u]);
    }
  }

  lemma {:induction false} EnsureRowGapless(db: Db, tx: nat)
    requires Valid(db) && Gapless(db) && Enabled(db, EnsureRow(tx))
    ensures Gapless(Step(db, EnsureRow(tx)))
  {
    assert Locked(db, db.txs[tx]);
    OwnTxGapless(db, Step(db, EnsureRow(tx)), tx);
  }

  lemma {:induction false} AllocateGapless(db: Db, tx: nat)
    requires Valid(db) && Gapless(db) && Enabled(db, Allocate(tx))
    ensures Gapless(Step(db, Allocate(tx)))
  {
    assert Locked(db, db.txs[tx]);
    OwnTxGapless(db, Step(db, Allocate(tx)), tx);
  }

  lemma {:induction false} InsertGapless(db: Db, tx: nat)
    requires Valid(db) && Gapless(db) && Enabled(db, Insert(tx))
    ensures Gapless(Step(db, Insert(tx)))
  {
    assert Locked(db, db.txs[tx]);
    OwnTxGapless(db, Step(db, Insert(tx)), tx);
  }

  lemma {:induction false} GaplessStep(db: Db, st: Statement)
    requires Valid(db) && Gapless(db) && Enabled(db, st)
    ensures Gapless(Step(db, st))
  {
    match st
    case Begin(tx, _, _) => OwnTxGapless(db, Step(db, st), tx);
    case EnsureRow(tx) => EnsureRowGapless(db, tx);
    case Allocate(tx) => AllocateGapless(db, tx);
    case Insert(tx) => InsertGapless(db, tx);
    case Commit(tx) => CommitGapless(db, tx);
    case Rollback(tx) => OwnTxGapless(db, Step(db, st), tx);
  }

  ghost predicate Feasible(db: Db, run: seq<Statement>)
    requires Valid(db)
    decreases |run|
  {
    run == [] || (Enabled(db, run[0]) && Feasible(Step(db, run[0]), run[1..]))
  }

  ghost function After(db: Db, run: seq<Statement>): (db': Db)
    requires Valid(db) && Feasible(db, run)
    ensures Valid(db')
    decreases |run|
  {
    if run == [] then db else After(Step(db, run[0]), run[1..])
  }

  lemma {:induction false} GaplessFrom(db: Db, run: seq<Statement>)
    requires Valid(db) && Gapless(db) && Feasible(db, run)
    ensures Gapless(After(db, run))
    decreases |run|
  {
    if run != [] {
      GaplessStep(db, run[0]);
      GaplessFrom(Step(db, run[0]), run[1..]);
    }
  }

  /**
   Under every interleaving of emitting transactions, commits and rollbacks: the
   visible seqs of each session are exactly 1..next, and the committed blocks are
   disjoint and tile that range in commit order.
   */
  lemma {:induction false} SeqsGaplessAlways(run: seq<Statement>, sid: string)
    requires Feasible(EMPTY, run)
    ensures var db := After(EMPTY, run);
            SessionGapless(db, sid)
  {
    assert Gapless(EMPTY);
    GaplessFrom(EMPTY, run);
  }

  ghost predicate InBlock(b: (nat, nat), q: nat) {
    b.0 <= q <= b.1
  }

  /** Tiling blocks are disjoint and cover 1..next: every number lies in exactly one of them. */
  lemma {:induction false} TilesPartition(blocks: seq<(nat, nat)>, next: nat, q: nat)
    requires Tiles(blocks, next)
    ensures 1 <= q <= next <==> exists i :: 0 <= i < |blocks| && InBlock(blocks[i], q)
    ensures forall i, j | 0 <= i < |blocks| && 0 <= j < |blocks| && InBlock(blocks[i], q) && InBlock(blocks[j], q) ::
              i == j
    decreases |blocks|
  {
    if blocks != [] {
      var n := |blocks| - 1;
      var rest := blocks[..n];
      TilesPartition(rest, blocks[n].0 - 1, q);
      assert forall i | 0 <= i < n :: rest[i] == blocks[i];
      if 1 <= q < blocks[n].0 {
        var i :| 0 <= i < n && InBlock(rest[i], q);
        assert InBlock(blocks[i], q);
      } else if q >= 1 && q <= next {
        assert InBlock(blocks[n], q);
      }
    }
  }

  /** Numbers become visible in order: a commit adds only seqs past every visible one. */
  lemma {:induction false} CommitsInOrder(db: Db, tx: nat, q: nat)
    requires Valid(db) && Gapless(db) && Enabled(db, Commit(tx))
    requires q in Events(CommitStep(db, tx), db.txs[tx].sid) && q !in Events(db, db.txs[tx].sid)
    ensures forall p | p in Events(db, db.txs[tx].sid) :: p < q
  {
    assert Locked(db, db.txs[tx]) && SessionGapless(db, db.txs[tx].sid);
  }
}
