/**
 Keyset paging over a table that changes between pages: the cursor queries of
 internal/db/pgstore/sessions.sql.go and comments.sql.go, and the handler around
 them (internal/portal/sessions/listing.go). Rows are named by their immutable key
 (created_at, id); `keep` stands for the rest of the WHERE clause, whatever it is.
 */
module KeysetPaging {
  import opened Wrappers

  datatype Key = Key(createdAt: int, id: string)

  // ---------------------------------------------------------------------------
  // The order of ORDER BY created_at DESC, id DESC
  // ---------------------------------------------------------------------------

  predicate IdLess(a: string, b: string)
    decreases |a|
  {
    b != [] && (a == [] || a[0] < b[0] || (a[0] == b[0] && IdLess(a[1..], b[1..])))
  }

  lemma {:induction false} IdTotal(a: string, b: string)
    ensures !IdLess(a, a) && !(IdLess(a, b) && IdLess(b, a))
    ensures a == b || IdLess(a, b) || IdLess(b, a)
    decreases |a|
  {
    if a != [] {
      IdTotal(a[1..], a[1..]);
      if b != [] {
        IdTotal(a[1..], b[1..]);
        assert a[0] == b[0] && a[1..] == b[1..] ==> a == [a[0]] + a[1..] == [b[0]] + b[1..] == b;
      }
    }
  }

  lemma {:induction false} IdTransitive(a: string, b: string, c: string)
    requires IdLess(a, b) && IdLess(b, c)
    ensures IdLess(a, c)
    decreases |a|
  {
    if a != [] && a[0] == b[0] == c[0] {
      IdTransitive(a[1..], b[1..], c[1..]);
    }
  }

  predicate Less(a: Key, b: Key) {
    a.createdAt < b.createdAt || (a.createdAt == b.createdAt && IdLess(a.id, b.id))
  }

  lemma {:induction false} LessTotal(a: Key, b: Key)
    ensures !Less(a, a) && !(Less(a, b) && Less(b, a)) && (a == b || Less(a, b) || Less(b, a))
  {
    IdTotal(a.id, b.id);
  }

  lemma {:induction false} LessTransitive(a: Key, b: Key, c: Key)
    requires Less(a, b) && Less(b, c)
    ensures Less(a, c)
  {
    if a.createdAt == b.createdAt == c.createdAt {
      IdTransitive(a.id, b.id, c.id);
    }
  }

  ghost predicate IsGreatest(k: Key, s: set<Key>) {
    k in s && forall x | x in s && x != k :: Less(x, k)
  }

  lemma {:induction false} GreatestExists(s: set<Key>)
    requires s != {}
    ensures exists k :: IsGreatest(k, s)
  {
    var y :| y in s;
    var rest := s - {y};
    if rest == {} {
      assert s == {y};
      assert IsGreatest(y, s);
    } else {
      GreatestExists(rest);
      var k :| IsGreatest(k, rest);
      LessTotal(y, k);
      if Less(y, k) {
        assert IsGreatest(k, s);
      } else {
        forall x | x in s && x != y ensures Less(x, y) {
          if x != k {
            LessTransitive(x, k, y);
          }
        }
        assert IsGreatest(y, s);
      }
    }
  }

  ghost predicate StrictlyDescending(r: seq<Key>) {
    forall i, j | 0 <= i < j < |r| :: Less(r[j], r[i])
  }

  /** The rows of a set in query order. */
  ghost function Descending(s: set<Key>): (r: seq<Key>)
    ensures StrictlyDescending(r) && |r| == |s|
    ensures forall x :: x in r <==> x in s
  {
    if s == {} then [] else
      GreatestExists(s);
      var k :| IsGreatest(k, s);
      [k] + Descending(s - {k})
  }

  // ---------------------------------------------------------------------------
  // One page
  // ---------------------------------------------------------------------------

  /** Rows the query can return. */
  ghost function Below<T(!new)>(table: map<Key, T>, keep: T -> bool, before: Key): set<Key> {
    set k | k in table && keep(table[k]) && Less(k, before)
  }

  /** WHERE ... AND (created_at, id) < cursor ORDER BY created_at DESC, id DESC LIMIT n */
  ghost function Select<T(!new)>(table: map<Key, T>, keep: T -> bool, before: Key, limit: nat): (r: seq<Key>)
    ensures StrictlyDescending(r) && |r| <= limit
    ensures forall k :: k in r ==> k in Below(table, keep, before)
    ensures |r| < limit ==> forall k | k in Below(table, keep, before) :: k in r
  {
    var all := Descending(Below(table, keep, before));
    if |all| <= limit then all else all[..limit]
  }

  /** A row the query leaves out is below every row it returns. */
  lemma {:induction false} SelectLeavesLower<T(!new)>(table: map<Key, T>, keep: T -> bool, before: Key, limit: nat, k: Key, x: Key)
    requires k in Below(table, keep, before) && k !in Select(table, keep, before, limit)
    requires x in Select(table, keep, before, limit)
    ensures Less(k, x)
  {
    var all := Descending(Below(table, keep, before));
    assert k in all && all == all[..limit] + all[limit..];
  }

  /** A page and the cursor of the next one, if any. */
  datatype Page = Page(items: seq<Key>, next: Option<Key>)

  /** ListSessions: ask for one row more than the limit to see whether there is another page. */
  ghost function PageOf<T(!new)>(table: map<Key, T>, keep: T -> bool, before: Key, limit: nat): Page
    requires limit >= 1
  {
    var rows := Select(table, keep, before, limit + 1);
    if |rows| > limit then Page(rows[..limit], Some(rows[limit - 1])) else Page(rows, None)
  }

  /** What one page promises, without saying how it is computed. */
  lemma {:induction false} PagePromises<T(!new)>(table: map<Key, T>, keep: T -> bool, before: Key, limit: nat)
    requires limit >= 1
    ensures var p := PageOf(table, keep, before, limit);
            && StrictlyDescending(p.items)
            && (forall k | k in p.items :: k in Below(table, keep, before))
            && (p.next.None? ==> forall k | k in Below(table, keep, before) :: k in p.items)
            && (p.next.Some? ==>
                  && p.items != [] && p.next.value == p.items[|p.items| - 1]
                  && forall k | k in Below(table, keep, before) && k !in p.items :: Less(k, p.next.value))
  {
    hide Descending, Select, Less;
    var rows, p := Select(table, keep, before, limit + 1), PageOf(table, keep, before, limit);
    if p.next.Some? {
      assert rows[limit - 1] in rows;
      forall k | k in Below(table, keep, before) && k !in p.items ensures Less(k, p.next.value) {
        if k in rows {
          assert rows == p.items + [rows[limit]];
        } else {
          SelectLeavesLower(table, keep, before, limit + 1, k, rows[limit - 1]);
        }
      }
    }
  }

  // ---------------------------------------------------------------------------
  // Chained pages, writers in between
  // ---------------------------------------------------------------------------

  /** Page i is read from tables[i]; the next one continues from its last row. */
  ghost function Chain<T(!new)>(tables: seq<map<Key, T>>, keep: T -> bool, before: Key, limit: nat): seq<Key>
    requires limit >= 1
    decreases |tables|
  {
    if tables == [] then [] else
      var p := PageOf(tables[0], keep, before, limit);
      p.items + if p.next.None? then [] else Chain(tables[1..], keep, p.next.value, limit)
  }

  /** The chain came to a page without a next cursor. */
  ghost predicate Finished<T(!new)>(tables: seq<map<Key, T>>, keep: T -> bool, before: Key, limit: nat)
    requires limit >= 1
    decreases |tables|
  {
    tables != [] &&
    var p := PageOf(tables[0], keep, before, limit);
    p.next.Some? ==> Finished(tables[1..], keep, p.next.value, limit)
  }

  lemma {:induction false} DescendingJoin(a: seq<Key>, b: seq<Key>, mid: Key)
    requires StrictlyDescending(a) && StrictlyDescending(b) && a != [] && a[|a| - 1] == mid
    requires forall k | k in b :: Less(k, mid)
    ensures StrictlyDescending(a + b)
  {
    var r := a + b;
    forall i, j | 0 <= i < j < |r| ensures Less(r[j], r[i]) {
      if i < |a| <= j {
        assert r[j] in b;
        if i < |a| - 1 {
          LessTransitive(r[j], mid, r[i]);
        }
      }
    }
  }

  /** Whatever is written between the pages, rows come out in strictly descending order: none twice. */
  lemma {:induction false} ChainDescends<T(!new)>(tables: seq<map<Key, T>>, keep: T -> bool, before: Key, limit: nat)
    requires limit >= 1
    ensures StrictlyDescending(Chain(tables, keep, before, limit))
    ensures forall k | k in Chain(tables, keep, before, limit) :: Less(k, before)
    decreases |tables|
  {
    if tables != [] {
      var p := PageOf(tables[0], keep, before, limit);
      PagePromises(tables[0], keep, before, limit);
      if p.next.Some? {
        var rest := Chain(tables[1..], keep, p.next.value, limit);
        ChainDescends(tables[1..], keep, p.next.value, limit);
        DescendingJoin(p.items, rest, p.next.value);
        assert p.next.value in p.items;
        forall k | k in rest ensures Less(k, before) {
          LessTransitive(k, p.next.value, before);
        }
      }
    }
  }

  ghost predicate PresentThroughout<T(!new)>(tables: seq<map<Key, T>>, keep: T -> bool, k: Key) {
    forall i | 0 <= i < |tables| :: k in tables[i] && keep(tables[i][k])
  }

  /** A finished chain contains every matching row that was there all along. */
  lemma {:induction false} ChainComplete<T(!new)>(
    tables: seq<map<Key, T>>, keep: T -> bool, before: Key, limit: nat, k: Key)
    requires limit >= 1 && Finished(tables, keep, before, limit)
    requires PresentThroughout(tables, keep, k) && Less(k, before)
    ensures k in Chain(tables, keep, before, limit)
    decreases |tables|
  {
    var p := PageOf(tables[0], keep, before, limit);
    PagePromises(tables[0], keep, before, limit);
    assert k in Below(tables[0], keep, before);
    if k !in p.items {
      assert PresentThroughout(tables[1..], keep, k);
      ChainComplete(tables[1..], keep, p.next.value, limit, k);
    }
  }

  /** Every row of a chain was in one of the tables and matched there. */
  lemma {:induction false} ChainSound<T(!new)>(
    tables: seq<map<Key, T>>, keep: T -> bool, before: Key, limit: nat, k: Key)
    requires limit >= 1 && k in Chain(tables, keep, before, limit)
    ensures exists i :: 0 <= i < |tables| && k in tables[i] && keep(tables[i][k])
    decreases |tables|
  {
    var p := PageOf(tables[0], keep, before, limit);
    PagePromises(tables[0], keep, before, limit);
    if k in p.items {
      assert k in Below(tables[0], keep, before);
    } else {
      ChainSound(tables[1..], keep, p.next.value, limit, k);
      var i :| 0 <= i < |tables[1..]| && k in tables[1..][i] && keep(tables[1..][i][k]);
      assert tables[i + 1] == tables[1..][i];
    }
  }

  lemma {:induction false} DescendingUnique(a: seq<Key>, b: seq<Key>)
    requires StrictlyDescending(a) && StrictlyDescending(b) && forall x :: x in a <==> x in b
    ensures a == b
    decreases |a|
  {
    assert b == [] || b[0] in b;
    if a != [] {
      assert a[0] in b && b[0] in a;
      LessTotal(a[0], b[0]);
      assert a[0] == b[0];
      LessTotal(a[0], a[0]);
      forall x ensures x in a[1..] <==> x in b[1..] {
        assert x in a <==> x == a[0] || x in a[1..];
        assert x in b <==> x == b[0] || x in b[1..];
      }
      DescendingUnique(a[1..], b[1..]);
    }
  }

  /** With no writers a finished chain is the whole listing, in order. */
  lemma {:induction false} ChainIsFullListing<T(!new)>(
    table: map<Key, T>, n: nat, keep: T -> bool, before: Key, limit: nat)
    requires limit >= 1 && Finished(seq(n, (i: nat) => table), keep, before, limit)
    ensures Chain(seq(n, (i: nat) => table), keep, before, limit) == Descending(Below(table, keep, before))
  {
    var tables := seq(n, (i: nat) => table);
    var got, all := Chain(tables, keep, before, limit), Descending(Below(table, keep, before));
    ChainDescends(tables, keep, before, limit);
    forall k ensures k in got <==> k in all {
      if k in got {
        ChainSound(tables, keep, before, limit, k);
      } else if k in all {
        ChainComplete(tables, keep, before, limit, k);
      }
    }
    DescendingUnique(got, all);
  }

  lemma {:induction false} BelowLastIsOut(r: seq<Key>, k: Key)
    requires StrictlyDescending(r) && r != [] && Less(k, r[|r| - 1])
    ensures k !in r
  {
    LessTotal(k, r[|r| - 1]);
  }

  /** Keys of a set that lie below a descending list of its members leave room for that list. */
  lemma {:induction false} RoomForItems(items: seq<Key>, later: set<Key>, now: set<Key>)
    requires StrictlyDescending(items) && items != [] && later <= now
    requires forall k | k in items :: k in now
    requires forall k | k in later :: Less(k, items[|items| - 1])
    ensures |later| + |items| <= |now|
  {
    hide Less;
    var seen := set k | k in items;
    DistinctItems(items);
    forall k | k in later ensures k !in seen {
      BelowLastIsOut(items, k);
    }
    assert later !! seen;
    assert |later + seen| == |later| + |seen|;
    Subset(later + seen, now);
  }

  /** What lies below a lower key is fewer. */
  lemma {:induction false} BelowShrinks<T(!new)>(table: map<Key, T>, keep: T -> bool, low: Key, before: Key)
    requires Less(low, before)
    ensures Below(table, keep, low) <= Below(table, keep, before)
  {
    forall k | k in Below(table, keep, low) ensures k in Below(table, keep, before) {
      LessTransitive(k, low, before);
    }
  }

  lemma {:induction false} FullPage<T(!new)>(table: map<Key, T>, keep: T -> bool, before: Key, limit: nat)
    requires limit >= 1
    ensures var p := PageOf(table, keep, before, limit); p.next.Some? ==> |p.items| == limit
  {
    hide Select, Less;
  }

  /** A page with a successor uses up `limit` rows. */
  lemma {:induction false} PageShrinks<T(!new)>(table: map<Key, T>, keep: T -> bool, before: Key, limit: nat)
    requires limit >= 1
    ensures var p := PageOf(table, keep, before, limit);
            p.next.Some? ==> |Below(table, keep, p.next.value)| + limit <= |Below(table, keep, before)|
  {
    var p := PageOf(table, keep, before, limit);
    PagePromises(table, keep, before, limit);
    FullPage(table, keep, before, limit);
    if p.next.Some? {
      assert p.next.value in Below(table, keep, before);
      BelowShrinks(table, keep, p.next.value, before);
      assert forall k | k in Below(table, keep, p.next.value) :: Less(k, p.next.value);
      hide PageOf, Below, Less;
      RoomForItems(p.items, Below(table, keep, p.next.value), Below(table, keep, before));
    }
  }

  /** With no writers the chain finishes within one page per `limit` rows, and one more. */
  lemma {:induction false} ChainFinishes<T(!new)>(
    table: map<Key, T>, tables: seq<map<Key, T>>, keep: T -> bool, before: Key, limit: nat)
    requires limit >= 1 && |Below(table, keep, before)| < |tables| * limit
    requires forall i | 0 <= i < |tables| :: tables[i] == table
    ensures Finished(tables, keep, before, limit)
    decreases |tables|
  {
    hide PageOf, Below;
    assert tables != [];
    var p := PageOf(table, keep, before, limit);
    PageShrinks(table, keep, before, limit);
    if p.next.Some? {
      assert |tables[1..]| * limit == |tables| * limit - limit;
      ChainFinishes(table, tables[1..], keep, p.next.value, limit);
    }
  }

  lemma {:induction false} Subset(a: set<Key>, b: set<Key>)
    requires a <= b
    ensures |a| <= |b|
  {
    assert b == a + (b - a);
  }

  lemma {:induction false} DistinctItems(r: seq<Key>)
    requires StrictlyDescending(r)
    ensures |set k | k in r| == |r|
    decreases |r|
  {
    if r != [] {
      DistinctItems(r[1..]);
      LessTotal(r[0], r[0]);
      assert (set k | k in r) == {r[0]} + set k | k in r[1..];
    }
  }
}
