/**
 The statements of internal/db/pgstore/events.sql.go on a mutable store, the
 emission that strings them together (internal/portal/events/log.go), and what a
 cursor read returns.
 */
module EventStore {
  import opened Wrappers
  import opened EventLog

  // ---------------------------------------------------------------------------
  // Cursor reads: seq > cursor ORDER BY seq ASC LIMIT n
  // ---------------------------------------------------------------------------

  function Least(s: set<nat>): (m: nat)
    requires s != {}
    ensures m in s && forall x | x in s :: m <= x
  {
    LeastExists(s);
    var m :| m in s && forall x | x in s :: m <= x;
    m
  }

  lemma {:induction false} LeastExists(s: set<nat>)
    requires s != {}
    ensures exists m :: m in s && forall x | x in s :: m <= x
  {
    var y :| y in s;
    if s - {y} == {} {
      assert s == {y};
    } else {
      LeastExists(s - {y});
      var m :| m in s - {y} && forall x | x in s - {y} :: m <= x;
      var l := if y <= m then y else m;
      assert forall x | x in s :: x == y || x in s - {y};
      assert l in s && forall x | x in s :: l <= x;
    }
  }

  ghost predicate StrictlyAscending(r: seq<nat>) {
    forall i, j | 0 <= i < j < |r| :: r[i] < r[j]
  }

  function Ascending(s: set<nat>): (r: seq<nat>)
    ensures StrictlyAscending(r) && |r| == |s|
    ensures forall x :: x in r <==> x in s
  {
    if s == {} then [] else
      var m := Least(s);
      [m] + Ascending(s - {m})
  }

  /** Rows past the cursor, of the given types if any are given. */
  function Matching(log: map<nat, string>, kinds: Option<set<string>>, cursor: nat): set<nat> {
    set q | q in log && q > cursor && (kinds.None? || log[q] in kinds.value)
  }

  function ListSince(log: map<nat, string>, kinds: Option<set<string>>, cursor: nat, limit: nat): (r: seq<nat>)
    ensures StrictlyAscending(r) && |r| <= limit
    ensures forall q :: q in r ==> q in Matching(log, kinds, cursor)
    ensures forall p, q | p in Matching(log, kinds, cursor) && q in r && p <= q :: p in r
    ensures |r| < limit ==> forall q | q in Matching(log, kinds, cursor) :: q in r
  {
    var all := Ascending(Matching(log, kinds, cursor));
    if |all| <= limit then all else
      assert forall p | p in all && p !in all[..limit] :: p in all[limit..];
      all[..limit]
  }

  lemma {:induction false} AscendingUnique(a: seq<nat>, b: seq<nat>)
    requires StrictlyAscending(a) && StrictlyAscending(b)
    requires forall x :: x in a <==> x in b
    ensures a == b
    decreases |a|
  {
    assert b == [] || b[0] in b;
    if a != [] {
      assert a[0] in b && b[0] in a;
      assert a[0] == b[0];
      forall x ensures x in a[1..] <==> x in b[1..] {
        assert x in a <==> x == a[0] || x in a[1..];
        assert x in b <==> x == b[0] || x in b[1..];
      }
      AscendingUnique(a[1..], b[1..]);
    }
  }

  /** On a gapless log a replay past `cursor` is the next numbers in order, up to the limit. */
  lemma {:induction false} ReplayIsContiguous(log: map<nat, string>, next: nat, cursor: nat, limit: nat)
    requires Exactly(log, next) && cursor <= next
    ensures var n := if next - cursor <= limit then next - cursor else limit;
            ListSince(log, None, cursor, limit) == seq(n, (i: nat) => cursor + 1 + i)
  {
    var all := seq(next - cursor, (i: nat) => cursor + 1 + i);
    var got := Ascending(Matching(log, None, cursor));
    forall x: nat ensures x in all <==> x in got {
      if cursor < x <= next {
        assert all[x - cursor - 1] == x;
      }
    }
    AscendingUnique(all, got);
  }

  // ---------------------------------------------------------------------------
  // The statements, in place
  // ---------------------------------------------------------------------------

  class Store {
    var next: map<string, nat>
    var events: map<string, map<nat, string>>

    function NextOf(sid: string): nat
      reads this
    {
      if sid in next then next[sid] else 0
    }

    function EventsOf(sid: string): map<nat, string>
      reads this
    {
      if sid in events then events[sid] else map[]
    }

    ghost predicate Valid()
      reads this
    {
      forall sid: string :: Exactly(EventsOf(sid), NextOf(sid))
    }

    constructor ()
      ensures Valid() && forall sid: string :: NextOf(sid) == 0
    {
      next, events := map[], map[];
    }

    /** INSERT ... ON CONFLICT DO NOTHING: never resets a counter. */
    method EnsureEventSeqRow(sid: string)
      modifies this`next
      ensures sid in next && forall t: string :: NextOf(t) == old(NextOf(t))
    {
      if sid !in next {
        next := next[sid := 0];
      }
    }

    /** None when the row does not exist. */
    method AllocateNextSeqN(sid: string, n: nat) returns (last: Option<nat>)
      modifies this`next
      ensures last.None? <==> sid !in old(next)
      ensures last.Some? ==> last.value == old(NextOf(sid)) + n == NextOf(sid)
      ensures last.None? ==> next == old(next)
      ensures forall t: string | t != sid :: NextOf(t) == old(NextOf(t))
    {
      if sid !in next {
        return None;
      }
      next := next[sid := next[sid] + n];
      last := Some(next[sid]);
    }

    /** Fails on UNIQUE(session_id, seq). */
    method InsertEvent(sid: string, seqNo: nat, typ: string) returns (ok: bool)
      modifies this`events
      ensures ok <==> seqNo !in old(EventsOf(sid))
      ensures EventsOf(sid) == if ok then old(EventsOf(sid))[seqNo := typ] else old(EventsOf(sid))
      ensures forall t: string | t != sid :: EventsOf(t) == old(EventsOf(t))
    {
      ok := seqNo !in EventsOf(sid);
      if ok {
        events := events[sid := EventsOf(sid)[seqNo := typ]];
      }
    }

    /** One row per draft, up to the first statement that fails; the numbers are new, so nothing else can. */
    method InsertDrafts(sid: string, first: nat, types: seq<string>, works: nat -> bool) returns (ok: bool)
      requires forall q | q in EventsOf(sid) :: q < first
      modifies this`events
      ensures ok <==> forall i: nat | i < |types| :: works(i)
      ensures ok ==> EventsOf(sid) == old(EventsOf(sid)) + Numbered(first, types)
      ensures forall t: string | t != sid :: EventsOf(t) == old(EventsOf(t))
    {
      hide Numbered;
      ghost var before := EventsOf(sid);
      assert types[..0] == [];
      assert before + Numbered(first, []) == before;
      for i := 0 to |types|
        invariant EventsOf(sid) == before + Numbered(first, types[..i])
        invariant forall t: string | t != sid :: EventsOf(t) == old(EventsOf(t))
        invariant forall j: nat | j < i :: works(j)
      {
        assert first + i !in before + Numbered(first, types[..i]);
        if !works(i) {
          return false;
        }
        var inserted := InsertEvent(sid, first + i, types[i]);
        NumberedGrows(first, types, i);
        assert (before + Numbered(first, types[..i]))[first + i := types[i]] == before + Numbered(first, types[..i + 1]);
      }
      assert types[..|types|] == types;
      ok := true;
    }

    /** Which of a batch's statements work: the row, the allocation, each insert, the commit. */
    ghost predicate AllWork(n: nat, rowWorks: bool, allocateWorks: bool, insertWorks: nat -> bool, commitWorks: bool) {
      rowWorks && allocateWorks && (forall i: nat | i < n :: insertWorks(i)) && commitWorks
    }

    /** The closure of a batch's transaction; None at the first statement that fails. */
    method TryBatch(sid: string, types: seq<string>, rowWorks: bool, allocateWorks: bool, insertWorks: nat -> bool)
      returns (first: Option<nat>)
      requires Valid()
      modifies this
      ensures first.Some? <==> rowWorks && allocateWorks && forall i: nat | i < |types| :: insertWorks(i)
      ensures first.Some? ==>
                && first.value == old(NextOf(sid)) + 1
                && EventsOf(sid) == old(EventsOf(sid)) + Numbered(first.value, types)
                && NextOf(sid) == old(NextOf(sid)) + |types|
      ensures forall t: string | t != sid :: EventsOf(t) == old(EventsOf(t)) && NextOf(t) == old(NextOf(t))
    {
      hide Numbered;
      assert Exactly(EventsOf(sid), NextOf(sid));
      if !rowWorks {
        return None;
      }
      EnsureEventSeqRow(sid);
      if !allocateWorks {
        return None;
      }
      var last := AllocateNextSeqN(sid, |types|);
      var seqNo := last.value - |types| + 1;
      var ok := InsertDrafts(sid, seqNo, types, insertWorks);
      first := if ok then Some(seqNo) else None;
    }

    /**
     EmitBatch: the drafts get the next numbers, in order, and no number is taken twice;
     a failing statement rolls the whole batch back, numbers included.
     */
    method EmitBatch(sid: string, types: seq<string>,
                     rowWorks: bool, allocateWorks: bool, insertWorks: nat -> bool, commitWorks: bool)
      returns (first: Option<nat>)
      requires Valid()
      modifies this
      ensures Valid()
      ensures first.Some? <==> types == [] || AllWork(|types|, rowWorks, allocateWorks, insertWorks, commitWorks)
      ensures types == [] ==> first == Some(0)
      ensures types == [] || first.None? ==> next == old(next) && events == old(events)
      ensures types != [] && first.Some? ==>
                && first.value == old(NextOf(sid)) + 1
                && EventsOf(sid) == old(EventsOf(sid)) + Numbered(first.value, types)
                && NextOf(sid) == old(NextOf(sid)) + |types|
      ensures forall t: string | t != sid :: EventsOf(t) == old(EventsOf(t)) && NextOf(t) == old(NextOf(t))
    {
      hide Numbered;
      if types == [] {
        return Some(0);
      }
      var nextBefore, eventsBefore := next, events;
      assert Exactly(EventsOf(sid), NextOf(sid));
      first := TryBatch(sid, types, rowWorks, allocateWorks, insertWorks);
      if first.None? || !commitWorks {
        next, events := nextBefore, eventsBefore;
        assert forall t: string :: EventsOf(t) == old(EventsOf(t)) && NextOf(t) == old(NextOf(t));
        assert forall t: string :: Exactly(old(EventsOf(t)), old(NextOf(t)));
        return None;
      }
      ExactlyGrows(old(EventsOf(sid)), old(NextOf(sid)), types);
      forall t: string ensures Exactly(EventsOf(t), NextOf(t)) {
        assert Exactly(old(EventsOf(t)), old(NextOf(t)));
      }
    }
  }
}
