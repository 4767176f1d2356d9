/**
 The commits that could not be pushed: the file-backed queue
 (cmd/jamsesh/retryqueue/queue.go), its two producers (hooks/posttooluse.go and
 hooks/stop.go) and the drain at the start of a turn (hooks/userpromptsubmit.go).

 A commit handed to the queue gets a birth number. The ledger says where each birth
 number is; the queue file holds only the entries.
 */
module RetryPipeline {
  import opened Wrappers
  import opened PushErrors
  import opened PushRetry

  datatype Entry = Entry(commitSHA: string, attempts: nat, lastError: string)

  datatype Item = Item(id: nat, entry: Entry)

  datatype Ledger = Ledger(
    queue: seq<Item>,
    born: seq<string>,          // SHA by birth number
    pushed: set<nat>,
    dropped: set<nat>,          // permanently rejected
    lost: set<nat>,             // enqueue or re-enqueue failed and was reported
    survived: map<nat, nat>)    // drains survived, by birth number

  const EMPTY: Ledger := Ledger([], [], {}, {}, {}, map[])

  /**
   One hook run, with what the outside did. Produce is a post-tool-use or stop whose
   push stayed transient; `saved` says whether Enqueue worked. Prompt is a
   user-prompt-submit: `drained` says whether Drain worked, `verdict(k)` is how the
   push of the k-th queued entry ended and `saved(k)` whether re-enqueueing it worked.
   */
  datatype Hook =
    | Produce(sha: string, message: string, saved: bool)
    | Prompt(drained: bool, verdict: nat -> Class, messages: nat -> string, resaved: nat -> bool)

  function Entries(q: seq<Item>): (es: seq<Entry>)
    ensures |es| == |q| && forall i | 0 <= i < |q| :: es[i] == q[i].entry
  {
    seq(|q|, i requires 0 <= i < |q| => q[i].entry)
  }

  function Retried(item: Item, message: string): Item {
    item.(entry := item.entry.(attempts := item.entry.attempts + 1, lastError := message))
  }

  /** The first n drained items that are still transient and could be saved again. */
  function Survivors(q: seq<Item>, h: Hook, n: nat): (r: seq<Item>)
    requires h.Prompt? && n <= |q|
    ensures |r| <= n
  {
    if n == 0 then [] else
      var r := Survivors(q, h, n - 1);
      if h.verdict(n - 1) == Transient && h.resaved(n - 1) then r + [Retried(q[n - 1], h.messages(n - 1))] else r
  }

  function Ending(q: seq<Item>, h: Hook, c: Class): set<nat>
    requires h.Prompt?
  {
    set k | 0 <= k < |q| && h.verdict(k) == c :: q[k].id
  }

  function Unsaved(q: seq<Item>, h: Hook): set<nat>
    requires h.Prompt?
  {
    set k | 0 <= k < |q| && h.verdict(k) == Transient && !h.resaved(k) :: q[k].id
  }

  function Step(s: Ledger, h: Hook): Ledger {
    match h
    case Produce(sha, message, saved) =>
      var id := |s.born|;
      var s1 := s.(born := s.born + [sha], survived := s.survived[id := 0]);
      if saved then s1.(queue := s.queue + [Item(id, Entry(sha, 3, message))]) else s1.(lost := s.lost + {id})
    case Prompt(drained, _, _, _) =>
      if !drained then s else
        s.(queue := Survivors(s.queue, h, |s.queue|),
           pushed := s.pushed + Ending(s.queue, h, OK),
           dropped := s.dropped + Ending(s.queue, h, Permanent),
           lost := s.lost + Unsaved(s.queue, h),
           survived := map i | i in s.survived ::
             s.survived[i] + if i in Ending(s.queue, h, Transient) then 1 else 0)
  }

  // ---------------------------------------------------------------------------
  // Conservation, order and attempt counts
  // ---------------------------------------------------------------------------

  ghost predicate InQueue(q: seq<Item>, id: nat) {
    exists k :: 0 <= k < |q| && q[k].id == id
  }

  /** Birth numbers increase along the queue: first in, first out. */
  ghost predicate Fifo(q: seq<Item>) {
    forall i, j | 0 <= i < j < |q| :: q[i].id < q[j].id
  }

  /** Every birth number is in exactly one place. */
  ghost predicate InOnePlace(s: Ledger, id: nat) {
    && (InQueue(s.queue, id) || id in s.pushed || id in s.dropped || id in s.lost)
    && !(InQueue(s.queue, id) && (id in s.pushed || id in s.dropped || id in s.lost))
    && !(id in s.pushed && (id in s.dropped || id in s.lost))
    && !(id in s.dropped && id in s.lost)
  }

  ghost predicate Conserved(s: Ledger) {
    && (forall id: nat | id < |s.born| :: InOnePlace(s, id))
    && (forall k | 0 <= k < |s.queue| :: s.queue[k].id < |s.born|)
    && (forall id | id in s.pushed || id in s.dropped || id in s.lost :: id < |s.born|)
  }

  /** A queued entry is the commit it was born as, and counts 3 attempts plus one per drain survived. */
  ghost predicate Accurate(s: Ledger) {
    && (forall id: nat :: id in s.survived <==> id < |s.born|)
    && (forall k | 0 <= k < |s.queue| ::
          && s.queue[k].id < |s.born|
          && s.queue[k].entry.commitSHA == s.born[s.queue[k].id]
          && s.queue[k].entry.attempts == 3 + s.survived[s.queue[k].id])
  }

  ghost predicate Sound(s: Ledger) {
    Conserved(s) && Fifo(s.queue) && Accurate(s)
  }

  ghost predicate Survives(h: Hook, k: nat)
    requires h.Prompt?
  {
    h.verdict(k) == Transient && h.resaved(k)
  }

  /** Survivor x is item k of the queue, one attempt older. */
  ghost predicate RetryOf(q: seq<Item>, h: Hook, k: nat, x: Item)
    requires h.Prompt? && k < |q|
  {
    Survives(h, k) && x == Retried(q[k], h.messages(k))
  }

  ghost predicate RetryOfSome(q: seq<Item>, h: Hook, n: nat, x: Item)
    requires h.Prompt? && n <= |q|
  {
    exists k: nat :: k < n && RetryOf(q, h, k, x)
  }

  lemma {:induction false} SurvivorSource(q: seq<Item>, h: Hook, n: nat, i: nat) returns (k: nat)
    requires h.Prompt? && n <= |q| && i < |Survivors(q, h, n)|
    ensures k < n && RetryOf(q, h, k, Survivors(q, h, n)[i])
    decreases n
  {
    var before := Survivors(q, h, n - 1);
    if i < |before| {
      k := SurvivorSource(q, h, n - 1, i);
    } else {
      k := n - 1;
    }
  }

  lemma {:induction false} SurvivorKept(q: seq<Item>, h: Hook, n: nat, k: nat)
    requires h.Prompt? && n <= |q| && k < n && Survives(h, k)
    ensures InQueue(Survivors(q, h, n), q[k].id)
    decreases n
  {
    var before, r := Survivors(q, h, n - 1), Survivors(q, h, n);
    if k < n - 1 {
      SurvivorKept(q, h, n - 1, k);
      var j :| 0 <= j < |before| && before[j].id == q[k].id;
      assert r[j].id == q[k].id;
    } else {
      assert r[|before|].id == q[k].id;
    }
  }

  lemma {:induction false} SurvivorsFifo(q: seq<Item>, h: Hook, n: nat)
    requires h.Prompt? && n <= |q| && Fifo(q)
    ensures Fifo(Survivors(q, h, n))
    decreases n
  {
    if n > 0 {
      SurvivorsFifo(q, h, n - 1);
      var before := Survivors(q, h, n - 1);
      forall i | 0 <= i < |before| ensures before[i].id < q[n - 1].id {
        var k := SurvivorSource(q, h, n - 1, i);
      }
    }
  }

  /** The survivors are the transient, saved items of the prefix, in their order. */
  lemma {:induction false} SurvivorsAre(q: seq<Item>, h: Hook, n: nat)
    requires h.Prompt? && n <= |q| && Fifo(q)
    ensures var r := Survivors(q, h, n);
            && Fifo(r)
            && (forall i | 0 <= i < |r| :: RetryOfSome(q, h, n, r[i]))
            && (forall k | 0 <= k < n && Survives(h, k) :: InQueue(r, q[k].id))
  {
    hide Survivors, InQueue;
    SurvivorsFifo(q, h, n);
    var r := Survivors(q, h, n);
    forall i | 0 <= i < |r| ensures RetryOfSome(q, h, n, r[i]) {
      var k := SurvivorSource(q, h, n, i);
      assert RetryOf(q, h, k, r[i]);
    }
    forall k | 0 <= k < n && Survives(h, k) ensures InQueue(r, q[k].id) {
      SurvivorKept(q, h, n, k);
    }
  }

  lemma {:induction false} ProduceSound(s: Ledger, h: Hook)
    requires Sound(s) && h.Produce?
    ensures Sound(Step(s, h))
  {
    var s', n := Step(s, h), |s.born|;
    forall id: nat | id < |s'.born| ensures InOnePlace(s', id) {
      if id < n {
        assert InOnePlace(s, id);
        if InQueue(s.queue, id) {
          var k :| 0 <= k < |s.queue| && s.queue[k].id == id;
          assert s'.queue[k].id == id;
        }
      } else if h.saved {
        assert s'.queue[|s.queue|].id == n;
      }
    }
  }

  /** Where a queued birth number goes in a drain. */
  lemma {:induction false} DrainPlaces(s: Ledger, h: Hook, k: nat)
    requires Sound(s) && h.Prompt? && h.drained && k < |s.queue|
    ensures var id := s.queue[k].id;
            && (id in Ending(s.queue, h, OK) <==> h.verdict(k) == OK)
            && (id in Ending(s.queue, h, Permanent) <==> h.verdict(k) == Permanent)
            && (id in Ending(s.queue, h, Transient) <==> h.verdict(k) == Transient)
            && (id in Unsaved(s.queue, h) <==> h.verdict(k) == Transient && !h.resaved(k))
            && (InQueue(Step(s, h).queue, id) <==> h.verdict(k) == Transient && h.resaved(k))
  {
    var q, id := s.queue, s.queue[k].id;
    assert forall j | 0 <= j < |q| && q[j].id == id :: j == k;
    SurvivorsAre(q, h, |q|);
  }

  lemma {:induction false} PromptConserved(s: Ledger, h: Hook)
    requires Sound(s) && h.Prompt? && h.drained
    ensures Conserved(Step(s, h))
  {
    var q, s' := s.queue, Step(s, h);
    SurvivorsAre(q, h, |q|);
    forall id: nat | id < |s'.born| ensures InOnePlace(s', id) {
      assert InOnePlace(s, id);
      if InQueue(q, id) {
        var k :| 0 <= k < |q| && q[k].id == id;
        DrainPlaces(s, h, k);
      }
    }
  }

  lemma {:induction false} PromptAccurate(s: Ledger, h: Hook)
    requires Sound(s) && h.Prompt? && h.drained
    ensures Accurate(Step(s, h)) && Fifo(Step(s, h).queue)
  {
    var q, s' := s.queue, Step(s, h);
    SurvivorsAre(q, h, |q|);
    forall i | 0 <= i < |s'.queue| ensures
      && s'.queue[i].id < |s'.born|
      && s'.queue[i].entry.commitSHA == s'.born[s'.queue[i].id]
      && s'.queue[i].entry.attempts == 3 + s'.survived[s'.queue[i].id]
    {
      var k :| 0 <= k < |q| && h.verdict(k) == Transient && h.resaved(k) && s'.queue[i] == Retried(q[k], h.messages(k));
      DrainPlaces(s, h, k);
    }
  }

  function After(s: Ledger, run: seq<Hook>): Ledger
    decreases |run|
  {
    if run == [] then s else After(Step(s, run[0]), run[1..])
  }

  lemma {:induction false} SoundFrom(s: Ledger, run: seq<Hook>)
    requires Sound(s)
    ensures Sound(After(s, run))
    decreases |run|
  {
    if run != [] {
      var h := run[0];
      if h.Produce? {
        ProduceSound(s, h);
      } else if h.drained {
        PromptConserved(s, h);
        PromptAccurate(s, h);
      }
      SoundFrom(Step(s, h), run[1..]);
    }
  }

  /**
   Over any sequence of hook runs, with any push results and any failing file
   operations: every commit ever handed over is in exactly one of queue, pushed,
   dropped and reported lost; the queue is first in first out; and each queued entry
   counts 3 attempts plus the drains it survived.
   */
  lemma {:induction false} QueueConservation(run: seq<Hook>)
    ensures var s := After(EMPTY, run);
            && (forall id: nat | id < |s.born| :: InOnePlace(s, id))
            && Fifo(s.queue)
            && (forall k | 0 <= k < |s.queue| ::
                  && s.queue[k].id < |s.born| && s.queue[k].id in s.survived
                  && s.queue[k].entry.commitSHA == s.born[s.queue[k].id]
                  && s.queue[k].entry.attempts == 3 + s.survived[s.queue[k].id])
  {
    SoundFrom(EMPTY, run);
  }

  // ---------------------------------------------------------------------------
  // The queue file and the hooks that use it
  // ---------------------------------------------------------------------------

  /** The queue file; an absent one is the empty queue. */
  datatype QueueFile = Absent | Holding(entries: seq<Entry>) | Undecodable

  class Queue {
    var file: QueueFile
    var temp: Option<seq<Entry>>         // the temp file of a save in progress
    ghost var history: seq<QueueFile>    // the queue file after each file operation of a save

    constructor (file: QueueFile)
      ensures this.file == file && temp == None && history == []
    {
      this.file, temp, history := file, None, [];
    }

    /** What Load returns when the read works and the content decodes. */
    function Contents(): (es: seq<Entry>)
      reads this
    {
      if file.Holding? then file.entries else []
    }

    /** `io` says whether reading the file works. */
    method Load(io: bool) returns (r: Result<seq<Entry>, string>)
      ensures r.Success? ==> r.value == Contents() && !file.Undecodable?
      ensures r.Failure? <==> file.Undecodable? || (!io && !file.Absent?)
    {
      if file.Absent? {
        return Success([]);
      }
      if !io {
        return Failure("reading");
      }
      if file.Undecodable? {
        return Failure("decoding");
      }
      r := Success(file.entries);
    }

    /**
     Directory, temp file, content, rename. When `io` is false one of them fails, any of
     them. Every intermediate state of the queue file is the old or the new content.
     */
    method Save(entries: seq<Entry>, io: bool) returns (ok: bool)
      modifies this
      ensures ok == io && file == if ok then Holding(entries) else old(file)
      ensures old(history) <= history
      ensures forall i | |old(history)| <= i < |history| :: history[i] == old(file) || history[i] == Holding(entries)
    {
      var failing: nat :| failing < 4;
      if !io && failing <= 1 {
        return false;
      }
      temp := Some([]);
      history := history + [file];
      if io || failing != 2 {
        temp := Some(entries);
        history := history + [file];
        if io {
          file := Holding(temp.value);
          temp := None;
          history := history + [file];
          return true;
        }
      }
      temp := None;
      history := history + [file];
      ok := false;
    }

    method Enqueue(e: Entry, readIo: bool, writeIo: bool) returns (ok: bool)
      modifies this
      ensures ok ==> file == Holding(old(Contents()) + [e])
      ensures !ok ==> file == old(file)
      ensures ok <==> !old(file).Undecodable? && (readIo || old(file).Absent?) && writeIo
    {
      var r := Load(readIo);
      if r.Failure? {
        return false;
      }
      ok := Save(r.value + [e], writeIo);
    }

    /** Returns everything and clears the file, or changes nothing. */
    method Drain(readIo: bool, writeIo: bool) returns (r: Result<seq<Entry>, string>)
      modifies this
      ensures r.Success? ==> r.value == old(Contents()) && file == Holding([])
      ensures r.Failure? ==> file == old(file)
      ensures r.Success? <==> !old(file).Undecodable? && (readIo || old(file).Absent?) && writeIo
    {
      r := Load(readIo);
      if r.Failure? {
        return;
      }
      var ok := Save([], writeIo);
      if !ok {
        r := Failure("saving");
      }
    }
  }

  /** Queue depth that makes stop report a wedged session. */
  const MAX_QUEUE_SIZE := 10

  /**
   The tail of post-tool-use and stop: push, and enqueue a commit whose push stayed
   transient. Stop then looks at the queue's size; a size it cannot read counts as 0.
   */
  method ProduceHook(q: Queue, git: Git, sha: string, message: string, readIo: bool, writeIo: bool, sizeIo: bool, ghost s: Ledger)
    returns (produced: bool, saved: bool, wedged: bool)
    requires q.Contents() == Entries(s.queue)
    modifies q
    ensures produced <==> FinalClass(git, 3) == Transient
    ensures q.Contents() == Entries((if produced then Step(s, Produce(sha, message, saved)) else s).queue)
    ensures wedged <==> sizeIo && |q.Contents()| > MAX_QUEUE_SIZE
  {
    hide FinalClass;
    var ending, pushes, slept := PushCommitWithRetry(git, 3);
    saved := false;
    produced := ending == Returned(Transient);
    if produced {
      saved := q.Enqueue(Entry(sha, 3, message), readIo, writeIo);
    }
    var size := q.Load(sizeIo);
    wedged := size.Success? && |size.value| > MAX_QUEUE_SIZE;
  }

  /** The drain loop: the first n entries whose push is still transient, with the attempt counted. */
  function StillFailing(es: seq<Entry>, verdict: nat -> Class, messages: nat -> string, n: nat): (r: seq<Entry>)
    requires n <= |es|
    ensures |r| <= n
  {
    if n == 0 then [] else
      var r := StillFailing(es, verdict, messages, n - 1);
      if verdict(n - 1) == Transient
      then r + [es[n - 1].(attempts := es[n - 1].attempts + 1, lastError := messages(n - 1))]
      else r
  }

  /** How many of the first n pushes stayed transient: the place of the n-th in the re-enqueue list. */
  function Rank(verdict: nat -> Class, n: nat): nat {
    if n == 0 then 0 else Rank(verdict, n - 1) + if verdict(n - 1) == Transient then 1 else 0
  }

  /** The re-enqueue loop: the first j entries that could be saved. */
  function SavedOf(re: seq<Entry>, io: nat -> bool, j: nat): seq<Entry>
    requires j <= |re|
  {
    if j == 0 then [] else SavedOf(re, io, j - 1) + if io(j - 1) then [re[j - 1]] else []
  }

  lemma {:induction false} SavedOfPrefix(a: seq<Entry>, b: seq<Entry>, io: nat -> bool, j: nat)
    requires j <= |a| && a <= b
    ensures SavedOf(a, io, j) == SavedOf(b, io, j)
    decreases j
  {
    if j > 0 {
      SavedOfPrefix(a, b, io, j - 1);
    }
  }

  lemma {:induction false} SavedOfStep(re: seq<Entry>, e: Entry, io: nat -> bool)
    ensures SavedOf(re + [e], io, |re| + 1) == SavedOf(re, io, |re|) + if io(|re|) then [e] else []
  {
    SavedOfPrefix(re, re + [e], io, |re|);
  }

  /** Whether the k-th drained entry is saved again is decided at its place in the re-enqueue list. */
  ghost predicate SavesBy(h: Hook, io: nat -> bool)
    requires h.Prompt?
  {
    forall k: nat {:trigger h.resaved(k)} :: h.resaved(k) == io(Rank(h.verdict, k))
  }

  /** Two loops over the entries do what one pass over the numbered items does. */
  lemma {:induction false} TwoLoopsAreOnePass(q: seq<Item>, h: Hook, io: nat -> bool, n: nat)
    requires h.Prompt? && n <= |q| && SavesBy(h, io)
    ensures |StillFailing(Entries(q), h.verdict, h.messages, n)| == Rank(h.verdict, n)
    ensures SavedOf(StillFailing(Entries(q), h.verdict, h.messages, n), io, Rank(h.verdict, n))
         == Entries(Survivors(q, h, n))
    decreases n
  {
    if n > 0 {
      TwoLoopsAreOnePass(q, h, io, n - 1);
      if h.verdict(n - 1) == Transient {
        var before := StillFailing(Entries(q), h.verdict, h.messages, n - 1);
        var item := Retried(q[n - 1], h.messages(n - 1));
        assert StillFailing(Entries(q), h.verdict, h.messages, n) == before + [item.entry];
        SavedOfStep(before, item.entry, io);
        SurvivorsStep(q, h, n);
        EntriesAppend(Survivors(q, h, n - 1), item);
        assert h.resaved(n - 1) == io(|before|);
      }
    }
  }

  lemma {:induction false} EntriesAppend(q: seq<Item>, item: Item)
    ensures Entries(q + [item]) == Entries(q) + [item.entry]
  {
  }

  lemma {:induction false} SurvivorsStep(q: seq<Item>, h: Hook, n: nat)
    requires h.Prompt? && 0 < n <= |q| && h.verdict(n - 1) == Transient
    ensures Survivors(q, h, n) ==
            if h.resaved(n - 1) then Survivors(q, h, n - 1) + [Retried(q[n - 1], h.messages(n - 1))]
            else Survivors(q, h, n - 1)
  {
  }

  /** Steps 1 and 2 of user-prompt-submit: drain, push each entry, re-enqueue what is still transient. */
  method DrainHook(q: Queue, gits: nat -> Git, messages: nat -> string, readIo: bool, writeIo: bool, io: nat -> bool,
                   ghost s: Ledger)
    returns (drained: bool, ghost h: Hook)
    requires q.Contents() == Entries(s.queue)
    modifies q
    ensures h.Prompt? && h.drained == drained && h.messages == messages
    ensures (forall k: nat :: h.verdict(k) == FinalClass(gits(k), 3)) && SavesBy(h, io)
    ensures q.Contents() == Entries(Step(s, h).queue)
  {
    hide FinalClass;
    ghost var verdict := (k: nat) => FinalClass(gits(k), 3);
    h := Prompt(false, verdict, messages, (k: nat) => io(Rank(verdict, k)));
    drained := false;
    var r := q.Drain(readIo, writeIo);
    if r.Failure? {
      return;
    }
    drained := true;
    h := h.(drained := true);
    var queued := r.value;
    var reEnqueue: seq<Entry> := [];
    for k := 0 to |queued|
      invariant reEnqueue == StillFailing(queued, verdict, messages, k)
      invariant q.file == Holding([])
    {
      var ending, pushes, slept := PushCommitWithRetry(gits(k), 3);
      if ending == Returned(Transient) {
        var e := queued[k];
        reEnqueue := reEnqueue + [e.(attempts := e.attempts + 1, lastError := messages(k))];
      }
    }
    for j := 0 to |reEnqueue|
      invariant q.file == Holding(SavedOf(reEnqueue, io, j))
    {
      var ok := q.Enqueue(reEnqueue[j], io(j), io(j));
    }
    TwoLoopsAreOnePass(s.queue, h, io, |s.queue|);
  }
}
