/**
 * The event indexer: deduplicated event writes, atomic chunks with a checkpoint, chunked range runs that may
 * die and be resumed or repeated, and why the tables end as if every event had been applied once, in order.
 */
module Indexer {
  import opened Arith

  const DEDUP_TTL_MS: nat := 3_600_000

  /** A transaction event; `txHash` 0 stands for a missing hash. */
  datatype Event = Event(
    id: nat, txHash: nat, index: nat, ledger: nat, user: nat, asset: nat, deposited: int, borrowed: int)

  datatype Holding = Holding(deposited: int, borrowed: int)

  type Positions = map<(nat, nat), Holding>

  datatype DB = DB(now: nat, history: seq<Event>, dedup: map<nat, nat>, positions: Positions, checkpoint: nat)

  const EMPTY: DB := DB(0, [], map[], map[], 0)

  // ---------------------------------------------------------------- writes

  /** Balances are clamped at zero, so the order of deltas matters. */
  function ApplyDelta(m: Positions, e: Event): Positions {
    var key := (e.user, e.asset);
    var held := if key in m then m[key] else Holding(0, 0);
    m[key := Holding(Max(held.deposited + e.deposited, 0), Max(held.borrowed + e.borrowed, 0))]
  }

  /** One uninterrupted pass over a list of events. */
  function Balances(events: seq<Event>): Positions {
    if |events| == 0 then map[] else ApplyDelta(Balances(events[..|events| - 1]), events[|events| - 1])
  }

  predicate SameEvent(row: Event, e: Event) {
    row.id == e.id || (e.txHash != 0 && row.txHash == e.txHash && row.index == e.index)
  }

  /** The lookaside entry while it lives, otherwise the history. */
  predicate IsDuplicate(db: DB, e: Event) {
    || (e.id in db.dedup && db.dedup[e.id] > db.now)
    || exists i | 0 <= i < |db.history| :: SameEvent(db.history[i], e)
  }

  function ProcessEvent(db: DB, e: Event): DB {
    if IsDuplicate(db, e) then db
    else db.(history := db.history + [e],
             positions := ApplyDelta(db.positions, e),
             dedup := db.dedup[e.id := db.now + DEDUP_TTL_MS])
  }

  function ProcessEvents(db: DB, events: seq<Event>): DB {
    if |events| == 0 then db else ProcessEvent(ProcessEvents(db, events[..|events| - 1]), events[|events| - 1])
  }

  /** One transaction: all the events of the chunk and the checkpoint. */
  function ChunkProcessed(db: DB, events: seq<Event>, chunkEnd: nat): DB {
    var t := ProcessEvents(db, events);
    if chunkEnd > 0 then t.(checkpoint := chunkEnd) else t
  }

  // ---------------------------------------------------------------- the chain

  predicate InRange(e: Event, lo: nat, hi: nat) {
    lo <= e.ledger <= hi
  }

  /** The events of a ledger range, in chain order. */
  function Fetch(chain: seq<Event>, lo: nat, hi: nat): seq<Event> {
    if |chain| == 0 then []
    else
      var last := chain[|chain| - 1];
      Fetch(chain[..|chain| - 1], lo, hi) + if InRange(last, lo, hi) then [last] else []
  }

  /** Events come in ledger order, and no two share an id or a (hash, index) pair. */
  ghost predicate ValidChain(chain: seq<Event>) {
    && (forall i, j | 0 <= i < j < |chain| :: chain[i].ledger <= chain[j].ledger)
    && (forall i, j | 0 <= i < j < |chain| :: !SameEvent(chain[i], chain[j]) && !SameEvent(chain[j], chain[i]))
  }

  // ---------------------------------------------------------------- runs

  /** At most `limit` chunks of a range are committed; the process dies, or a chunk rolls back, after that. */
  function IndexRange(chain: seq<Event>, db: DB, lo: nat, hi: nat, size: nat, limit: nat): DB
    requires size > 0
    decreases limit
  {
    if limit == 0 || lo > hi then db
    else
      var end := Min(lo + size - 1, hi);
      IndexRange(chain, ChunkProcessed(db, Fetch(chain, lo, end), end), lo + size, hi, size, limit - 1)
  }

  datatype Action =
    | Index(lo: nat, hi: nat, size: nat, limit: nat)
    | CleanDedup
    | Tick(ms: nat)

  function Next(chain: seq<Event>, db: DB, action: Action): DB {
    match action
    case Index(lo, hi, size, limit) => if size == 0 then db else IndexRange(chain, db, lo, hi, size, limit)
    case CleanDedup => db.(dedup := map e | e in db.dedup && !(db.dedup[e] < db.now) :: db.dedup[e])
    case Tick(ms) => db.(now := db.now + ms)
  }

  function Run(chain: seq<Event>, actions: seq<Action>): DB {
    if |actions| == 0 then EMPTY else Next(chain, Run(chain, actions[..|actions| - 1]), actions[|actions| - 1])
  }

  // ---------------------------------------------------------------- the reference: history without tables

  /** Appends the events that are not there yet. */
  function Admit(history: seq<Event>, events: seq<Event>): seq<Event> {
    if |events| == 0 then history
    else
      var before := Admit(history, events[..|events| - 1]);
      var e := events[|events| - 1];
      if e in before then before else before + [e]
  }

  /** The chunks that a range run commits, in order. */
  function Chunks(lo: nat, hi: nat, size: nat, limit: nat): seq<(nat, nat)>
    requires size > 0
    decreases limit
  {
    if limit == 0 || lo > hi then []
    else [(lo, Min(lo + size - 1, hi))] + Chunks(lo + size, hi, size, limit - 1)
  }

  /** All the chunks that a run commits; time, cleaning and rolled-back chunks leave no trace in it. */
  function Committed(actions: seq<Action>): seq<(nat, nat)> {
    if |actions| == 0 then []
    else
      Committed(actions[..|actions| - 1]) +
      match actions[|actions| - 1]
      case Index(lo, hi, size, limit) => if size == 0 then [] else Chunks(lo, hi, size, limit)
      case _ => []
  }

  function HistoryOf(chain: seq<Event>, chunks: seq<(nat, nat)>): seq<Event> {
    if |chunks| == 0 then []
    else
      var (lo, hi) := chunks[|chunks| - 1];
      Admit(HistoryOf(chain, chunks[..|chunks| - 1]), Fetch(chain, lo, hi))
  }

  /** The tables agree with the history, and the history with the chain. */
  ghost predicate Good(chain: seq<Event>, db: DB) {
    && (forall e | e in db.history :: e in chain)
    && (forall id | id in db.dedup :: exists i | 0 <= i < |db.history| :: db.history[i].id == id)
    && db.positions == Balances(db.history)
  }

  lemma {:induction false} FetchMembers(chain: seq<Event>, lo: nat, hi: nat)
    ensures forall e :: e in Fetch(chain, lo, hi) <==> e in chain && InRange(e, lo, hi)
  {
    if |chain| > 0 {
      assert chain == chain[..|chain| - 1] + [chain[|chain| - 1]];
      FetchMembers(chain[..|chain| - 1], lo, hi);
    }
  }

  /** On events of the chain, the duplicate check decides exactly whether the event is in the history. */
  lemma DuplicateIffSeen(chain: seq<Event>, db: DB, e: Event)
    requires ValidChain(chain) && Good(chain, db) && e in chain
    ensures IsDuplicate(db, e) <==> e in db.history
  {
    var k :| 0 <= k < |chain| && chain[k] == e;
    if IsDuplicate(db, e) {
      var i :| 0 <= i < |db.history| && SameEvent(db.history[i], e);
      assert db.history[i] in db.history;
      var m :| 0 <= m < |chain| && chain[m] == db.history[i];
      assert m == k;
    }
    if e in db.history {
      var i :| 0 <= i < |db.history| && db.history[i] == e;
      assert SameEvent(db.history[i], e);
    }
  }

  lemma BalancesAppend(events: seq<Event>, e: Event)
    ensures Balances(events + [e]) == ApplyDelta(Balances(events), e)
  {
    assert (events + [e])[..|events|] == events;
  }

  lemma ProcessEventGood(chain: seq<Event>, db: DB, e: Event)
    requires ValidChain(chain) && Good(chain, db) && e in chain
    ensures var t := ProcessEvent(db, e);
      Good(chain, t) && t.history == (if e in db.history then db.history else db.history + [e])
  {
    hide ApplyDelta, Balances, IsDuplicate;
    DuplicateIffSeen(chain, db, e);
    if e !in db.history {
      var t := ProcessEvent(db, e);
      BalancesAppend(db.history, e);
      forall id | id in t.dedup
        ensures exists i | 0 <= i < |t.history| :: t.history[i].id == id
      {
        if id == e.id {
          assert t.history[|db.history|].id == id;
        } else {
          var i :| 0 <= i < |db.history| && db.history[i].id == id;
          assert t.history[i].id == id;
        }
      }
    }
  }

  lemma {:induction false} ProcessEventsGood(chain: seq<Event>, db: DB, events: seq<Event>)
    requires ValidChain(chain) && Good(chain, db) && forall e | e in events :: e in chain
    ensures var t := ProcessEvents(db, events);
      Good(chain, t) && t.history == Admit(db.history, events)
  {
    hide ProcessEvent, Good, ValidChain;
    if |events| > 0 {
      ProcessEventsGood(chain, db, events[..|events| - 1]);
      ProcessEventGood(chain, ProcessEvents(db, events[..|events| - 1]), events[|events| - 1]);
    }
  }

  lemma ProcessChunkGood(chain: seq<Event>, db: DB, lo: nat, hi: nat)
    requires ValidChain(chain) && Good(chain, db)
    ensures var t := ChunkProcessed(db, Fetch(chain, lo, hi), hi);
      Good(chain, t) && t.history == Admit(db.history, Fetch(chain, lo, hi))
  {
    FetchMembers(chain, lo, hi);
    ProcessEventsGood(chain, db, Fetch(chain, lo, hi));
  }

  lemma HistoryAppend(chain: seq<Event>, done: seq<(nat, nat)>, lo: nat, hi: nat)
    ensures HistoryOf(chain, done + [(lo, hi)]) == Admit(HistoryOf(chain, done), Fetch(chain, lo, hi))
  {
    assert (done + [(lo, hi)])[..|done|] == done;
  }

  lemma Regroup<T>(a: seq<T>, x: T, b: seq<T>)
    ensures a + ([x] + b) == a + [x] + b
  {
  }

  /** A range run writes the history of its committed chunks. */
  lemma {:induction false} IndexRangeGood(chain: seq<Event>, db: DB, done: seq<(nat, nat)>, lo: nat, hi: nat, size: nat, limit: nat)
    requires ValidChain(chain) && Good(chain, db) && size > 0 && db.history == HistoryOf(chain, done)
    ensures var t := IndexRange(chain, db, lo, hi, size, limit);
      Good(chain, t) && t.history == HistoryOf(chain, done + Chunks(lo, hi, size, limit))
    decreases limit
  {
    hide ChunkProcessed, Fetch, Good, ValidChain, HistoryOf, Admit;
    if limit == 0 || lo > hi {
      assert done + [] == done;
    } else {
      var end := Min(lo + size - 1, hi);
      var more := done + [(lo, end)];
      ProcessChunkGood(chain, db, lo, end);
      HistoryAppend(chain, done, lo, end);
      IndexRangeGood(chain, ChunkProcessed(db, Fetch(chain, lo, end), end), more, lo + size, hi, size, limit - 1);
      Regroup(done, (lo, Min(lo + size - 1, hi)), Chunks(lo + size, hi, size, limit - 1));
    }
  }

  lemma CleaningKeepsGood(chain: seq<Event>, db: DB, t: DB)
    requires Good(chain, db) && t.history == db.history && t.positions == db.positions
    requires forall id | id in t.dedup :: id in db.dedup
    ensures Good(chain, t)
  {
  }

  /**
   * History and positions after any run, with chunks of any size, processes dying after any chunk, repeated
   * and overlapping ranges, and any passing of time and cleaning of the lookaside table: they depend on the
   * committed ranges alone, and the positions are one clamped pass over the history.
   */
  lemma {:induction false} TablesFollowCommitted(chain: seq<Event>, actions: seq<Action>)
    requires ValidChain(chain)
    ensures var db := Run(chain, actions);
      && Good(chain, db)
      && db.history == HistoryOf(chain, Committed(actions))
      && db.positions == Balances(HistoryOf(chain, Committed(actions)))
  {
    hide ValidChain, HistoryOf, Balances, IndexRange;
    if |actions| == 0 {
      assert HistoryOf(chain, []) == [] && Balances([]) == map[] by { NothingYet(chain); }
    } else {
      var before, last := actions[..|actions| - 1], actions[|actions| - 1];
      TablesFollowCommitted(chain, before);
      var db := Run(chain, before);
      match last {
        case Index(lo, hi, size, limit) =>
          if size > 0 {
            IndexRangeGood(chain, db, Committed(before), lo, hi, size, limit);
          } else {
            assert Committed(before) + [] == Committed(before);
          }
        case _ =>
          assert Committed(before) + [] == Committed(before);
          CleaningKeepsGood(chain, db, Next(chain, db, last));
      }
    }
  }

  lemma NothingYet(chain: seq<Event>)
    ensures HistoryOf(chain, []) == [] && Balances([]) == map[]
  {
  }

  // ---------------------------------------------------------------- exactly once

  predicate InChunks(e: Event, chunks: seq<(nat, nat)>) {
    exists i | 0 <= i < |chunks| :: InRange(e, chunks[i].0, chunks[i].1)
  }

  predicate NoRepeats(events: seq<Event>) {
    forall i, j | 0 <= i < j < |events| :: events[i] != events[j]
  }

  lemma {:induction false} AdmitOnce(history: seq<Event>, events: seq<Event>)
    requires NoRepeats(history)
    ensures NoRepeats(Admit(history, events))
    ensures forall e :: e in Admit(history, events) <==> e in history || e in events
  {
    if |events| > 0 {
      assert events == events[..|events| - 1] + [events[|events| - 1]];
      AdmitOnce(history, events[..|events| - 1]);
    }
  }

  lemma {:induction false} HistoryOnce(chain: seq<Event>, chunks: seq<(nat, nat)>)
    ensures NoRepeats(HistoryOf(chain, chunks))
    ensures forall e :: e in HistoryOf(chain, chunks) <==> e in chain && InChunks(e, chunks)
  {
    hide NoRepeats, Admit, Fetch;
    if |chunks| == 0 {
      assert NoRepeats([]) by { NothingRepeats(); }
    } else {
      var before, last := chunks[..|chunks| - 1], chunks[|chunks| - 1];
      HistoryOnce(chain, before);
      FetchMembers(chain, last.0, last.1);
      AdmitOnce(HistoryOf(chain, before), Fetch(chain, last.0, last.1));
      forall e
        ensures InChunks(e, chunks) <==> InChunks(e, before) || InRange(e, last.0, last.1)
      {
        InChunksLast(e, chunks);
      }
    }
  }

  lemma NothingRepeats()
    ensures NoRepeats([])
  {
  }

  lemma InChunksLast(e: Event, chunks: seq<(nat, nat)>)
    requires |chunks| > 0
    ensures var before, last := chunks[..|chunks| - 1], chunks[|chunks| - 1];
      InChunks(e, chunks) <==> InChunks(e, before) || InRange(e, last.0, last.1)
  {
    var before, last := chunks[..|chunks| - 1], chunks[|chunks| - 1];
    if InChunks(e, before) {
      var i :| 0 <= i < |before| && InRange(e, before[i].0, before[i].1);
      assert InRange(e, chunks[i].0, chunks[i].1);
    }
    if InChunks(e, chunks) && !InRange(e, last.0, last.1) {
      var i :| 0 <= i < |chunks| && InRange(e, chunks[i].0, chunks[i].1);
      assert InRange(e, before[i].0, before[i].1);
    }
  }

  /** Exactly once: the history holds every event of a committed range, nothing else, and nothing twice. */
  lemma ExactlyOnce(chain: seq<Event>, actions: seq<Action>)
    requires ValidChain(chain)
    ensures var db := Run(chain, actions);
      && NoRepeats(db.history)
      && (forall e :: e in db.history <==> e in chain && InChunks(e, Committed(actions)))
  {
    hide Run, Committed, HistoryOf, NoRepeats;
    TablesFollowCommitted(chain, actions);
    HistoryOnce(chain, Committed(actions));
  }

  // ---------------------------------------------------------------- in order

  lemma {:induction false} FetchNothing(chain: seq<Event>, lo: nat, hi: nat)
    requires forall i | 0 <= i < |chain| :: !InRange(chain[i], lo, hi)
    ensures Fetch(chain, lo, hi) == []
  {
    if |chain| > 0 {
      FetchNothing(chain[..|chain| - 1], lo, hi);
    }
  }

  /** A range is its two parts one after the other. */
  lemma {:induction false} FetchSplit(chain: seq<Event>, lo: nat, mid: nat, hi: nat)
    requires ValidChain(chain) && lo <= mid <= hi + 1
    ensures mid > 0 ==> Fetch(chain, lo, hi) == Fetch(chain, lo, mid - 1) + Fetch(chain, mid, hi)
    ensures mid == 0 ==> Fetch(chain, lo, hi) == Fetch(chain, mid, hi)
  {
    if |chain| > 0 && mid > 0 {
      var before, last := chain[..|chain| - 1], chain[|chain| - 1];
      FetchSplit(before, lo, mid, hi);
      if InRange(last, lo, mid - 1) {
        FetchNothing(before, mid, hi);
      }
    }
  }

  lemma {:induction false} AdmitSeen(history: seq<Event>, events: seq<Event>)
    requires forall e | e in events :: e in history
    ensures Admit(history, events) == history
  {
    if |events| > 0 {
      AdmitSeen(history, events[..|events| - 1]);
    }
  }

  lemma {:induction false} AdmitNew(history: seq<Event>, events: seq<Event>)
    requires NoRepeats(events) && forall e | e in events :: e !in history
    ensures Admit(history, events) == history + events
  {
    if |events| > 0 {
      var before, e := events[..|events| - 1], events[|events| - 1];
      AdmitNew(history, before);
      assert events == before + [e];
      assert e !in before;
    }
  }

  lemma {:induction false} AdmitSplit(history: seq<Event>, first: seq<Event>, second: seq<Event>)
    ensures Admit(history, first + second) == Admit(Admit(history, first), second)
  {
    if |second| == 0 {
      assert first + second == first;
    } else {
      AdmitSplit(history, first, second[..|second| - 1]);
      assert (first + second)[..|first + second| - 1] == first + second[..|second| - 1];
    }
  }

  lemma {:induction false} FetchNoRepeats(chain: seq<Event>, lo: nat, hi: nat)
    requires ValidChain(chain)
    ensures NoRepeats(Fetch(chain, lo, hi))
  {
    if |chain| > 0 {
      var before, last := chain[..|chain| - 1], chain[|chain| - 1];
      FetchNoRepeats(before, lo, hi);
      FetchMembers(before, lo, hi);
      forall e | e in before
        ensures e != last
      {
        var i :| 0 <= i < |before| && before[i] == e;
        assert chain[i] == e && !SameEvent(chain[i], chain[|chain| - 1]);
      }
    }
  }

  /** After the last ledger indexed so far; the first one to index at the start. */
  type Frontier = nat

  /** The chunks start within or right after what is covered, and never before the origin. */
  predicate Contiguous(origin: nat, chunks: seq<(nat, nat)>) {
    |chunks| > 0 ==>
      var (lo, hi) := chunks[|chunks| - 1];
      && Contiguous(origin, chunks[..|chunks| - 1])
      && origin <= lo <= hi && lo <= Reached(origin, chunks[..|chunks| - 1])
  }

  /** One past the highest ledger of any chunk. */
  function Reached(origin: nat, chunks: seq<(nat, nat)>): Frontier {
    if |chunks| == 0 then origin
    else Max(Reached(origin, chunks[..|chunks| - 1]), chunks[|chunks| - 1].1 + 1)
  }

  /** The events from the origin up to, not including, the frontier. */
  function Covered(chain: seq<Event>, origin: nat, frontier: Frontier): seq<Event> {
    if frontier == 0 then [] else Fetch(chain, origin, frontier - 1)
  }

  /** One chunk on top of a covered range extends it, whatever part of the chunk was there already. */
  lemma ChunkExtends(chain: seq<Event>, origin: nat, frontier: Frontier, lo: nat, hi: nat)
    requires ValidChain(chain) && origin <= lo <= hi && lo <= frontier
    ensures Admit(Covered(chain, origin, frontier), Fetch(chain, lo, hi))
              == Covered(chain, origin, Max(frontier, hi + 1))
  {
    hide Fetch, Admit, ValidChain;
    var history := Covered(chain, origin, frontier);
    FetchMembers(chain, lo, hi);
    if frontier > 0 {
      FetchMembers(chain, origin, frontier - 1);
    }
    if hi < frontier {
      AdmitSeen(history, Fetch(chain, lo, hi));
    } else {
      FetchSplit(chain, lo, frontier, hi);
      FetchSplit(chain, origin, frontier, hi);
      FetchMembers(chain, frontier, hi);
      FetchNoRepeats(chain, frontier, hi);
      AdmitNew(history, Fetch(chain, frontier, hi));
      if frontier > 0 {
        FetchMembers(chain, lo, frontier - 1);
        AdmitSeen(history, Fetch(chain, lo, frontier - 1));
        AdmitSplit(history, Fetch(chain, lo, frontier - 1), Fetch(chain, frontier, hi));
      } else {
        assert history == [];
        assert [] + Fetch(chain, frontier, hi) == Fetch(chain, frontier, hi);
      }
    }
  }

  lemma {:induction false} ContiguousHistory(chain: seq<Event>, origin: nat, chunks: seq<(nat, nat)>)
    requires ValidChain(chain) && Contiguous(origin, chunks)
    ensures HistoryOf(chain, chunks) == Covered(chain, origin, Reached(origin, chunks))
  {
    hide ValidChain, Admit, Covered;
    if |chunks| == 0 {
      NothingCovered(chain, origin);
    } else {
      var before, last := chunks[..|chunks| - 1], chunks[|chunks| - 1];
      ContiguousHistory(chain, origin, before);
      ChunkExtends(chain, origin, Reached(origin, before), last.0, last.1);
    }
  }

  lemma NothingCovered(chain: seq<Event>, origin: nat)
    ensures Covered(chain, origin, origin) == []
  {
    if origin > 0 {
      FetchNothing(chain, origin, origin - 1);
    }
  }

  /**
   * If every committed chunk starts within or right after what is already covered, history and positions are
   * those of one uninterrupted pass over the distinct events in ledger order, up to the highest ledger reached.
   */
  lemma OneUninterruptedPass(chain: seq<Event>, origin: nat, actions: seq<Action>)
    requires ValidChain(chain) && Contiguous(origin, Committed(actions))
    ensures var db := Run(chain, actions);
      var all := Covered(chain, origin, Reached(origin, Committed(actions)));
      db.history == all && db.positions == Balances(all)
  {
    hide ValidChain, Run, Committed, HistoryOf, Covered, Balances, Contiguous, Reached, Good;
    TablesFollowCommitted(chain, actions);
    ContiguousHistory(chain, origin, Committed(actions));
  }

  /**
   * And exactly then: a chunk that skips ahead of a covered range still yields the uninterrupted history if
   * and only if the chain has no event in the ledgers skipped.
   */
  lemma SkippingIff(chain: seq<Event>, origin: nat, frontier: Frontier, lo: nat, hi: nat)
    requires ValidChain(chain) && origin <= frontier < lo <= hi
    ensures Admit(Covered(chain, origin, frontier), Fetch(chain, lo, hi)) == Covered(chain, origin, hi + 1)
      <==> Fetch(chain, frontier, lo - 1) == []
  {
    hide Fetch, Admit, ValidChain;
    var history, gap, chunk := Covered(chain, origin, frontier), Fetch(chain, frontier, lo - 1), Fetch(chain, lo, hi);
    FetchMembers(chain, lo, hi);
    FetchNoRepeats(chain, lo, hi);
    if frontier > 0 {
      FetchMembers(chain, origin, frontier - 1);
    }
    AdmitNew(history, chunk);
    FetchSplit(chain, frontier, lo, hi);
    FetchSplit(chain, origin, frontier, hi);
    assert Covered(chain, origin, hi + 1) == history + (gap + chunk);
    assert |history + (gap + chunk)| == |history + chunk| + |gap|;
    if gap == [] {
      assert gap + chunk == chunk;
    }
  }

  // ---------------------------------------------------------------- exactly when a run is one pass

  /** The events of a list that belong to a set, in order. */
  function Select(chain: seq<Event>, keep: set<Event>): seq<Event> {
    if |chain| == 0 then []
    else Select(chain[..|chain| - 1], keep) + if chain[|chain| - 1] in keep then [chain[|chain| - 1]] else []
  }

  function RangeSet(chain: seq<Event>, lo: nat, hi: nat): set<Event> {
    set e | e in chain && InRange(e, lo, hi)
  }

  function ChunkSet(chain: seq<Event>, chunks: seq<(nat, nat)>): set<Event> {
    set e | e in chain && InChunks(e, chunks)
  }

  /** Every event that a chunk adds comes from a later ledger than all the events added before it. */
  predicate InOrder(chain: seq<Event>, chunks: seq<(nat, nat)>) {
    |chunks| > 0 ==>
      var (lo, hi) := chunks[|chunks| - 1];
      var before := HistoryOf(chain, chunks[..|chunks| - 1]);
      && InOrder(chain, chunks[..|chunks| - 1])
      && forall e, h | e in Fetch(chain, lo, hi) && h in before :: e !in before ==> h.ledger < e.ledger
  }

  lemma {:induction false} FetchIsSelect(chain: seq<Event>, lo: nat, hi: nat, keep: set<Event>)
    requires forall e | e in chain :: e in keep <==> InRange(e, lo, hi)
    ensures Fetch(chain, lo, hi) == Select(chain, keep)
  {
    if |chain| > 0 {
      FetchIsSelect(chain[..|chain| - 1], lo, hi, keep);
    }
  }

  lemma {:induction false} SelectNothing(chain: seq<Event>, keep: set<Event>)
    requires forall e | e in chain :: e !in keep
    ensures Select(chain, keep) == []
  {
    if |chain| > 0 {
      SelectNothing(chain[..|chain| - 1], keep);
    }
  }

  lemma {:induction false} SelectMembers(chain: seq<Event>, keep: set<Event>)
    ensures forall e :: e in Select(chain, keep) <==> e in chain && e in keep
  {
    if |chain| > 0 {
      assert chain == chain[..|chain| - 1] + [chain[|chain| - 1]];
      SelectMembers(chain[..|chain| - 1], keep);
    }
  }

  /** In ledger order, an earlier set and a later one select one after the other. */
  lemma {:induction false} SelectUnion(chain: seq<Event>, early: set<Event>, late: set<Event>)
    requires forall i, j | 0 <= i < j < |chain| :: chain[i].ledger <= chain[j].ledger
    requires forall e, h | e in late && h in early :: h.ledger < e.ledger
    ensures Select(chain, early) + Select(chain, late) == Select(chain, early + late)
  {
    if |chain| > 0 {
      var before, last := chain[..|chain| - 1], chain[|chain| - 1];
      SelectUnion(before, early, late);
      if last in early {
        forall e | e in before
          ensures e !in late
        {
          var i :| 0 <= i < |before| && before[i] == e;
          assert chain[i] == e;
        }
        SelectNothing(before, late);
      }
    }
  }

  /** Admitting a selection adds what was not there. */
  lemma {:induction false} AdmitSelected(history: seq<Event>, chain: seq<Event>, keep: set<Event>, news: set<Event>)
    requires NoRepeats(Select(chain, keep))
    requires forall e | e in chain :: e in news <==> e in keep && e !in history
    ensures Admit(history, Select(chain, keep)) == history + Select(chain, news)
  {
    hide NoRepeats, Admit;
    if |chain| == 0 {
      AdmitNothing(history);
    } else {
      var before, last := chain[..|chain| - 1], chain[|chain| - 1];
      var selected := Select(before, keep);
      if last in keep {
        RepeatsAppend(selected, last);
        AdmitSelected(history, before, keep, news);
        AdmittedMembers(history, selected);
        AdmitAppend(history, selected, last);
      } else {
        assert Select(chain, keep) == selected;
        AdmitSelected(history, before, keep, news);
      }
    }
  }

  lemma AdmitNothing(history: seq<Event>)
    ensures Admit(history, []) == history
  {
  }

  lemma AdmitAppend(history: seq<Event>, events: seq<Event>, e: Event)
    ensures Admit(history, events + [e])
              == Admit(history, events) + if e in Admit(history, events) then [] else [e]
  {
    assert (events + [e])[..|events|] == events;
  }

  lemma RepeatsAppend(events: seq<Event>, e: Event)
    requires NoRepeats(events + [e])
    ensures NoRepeats(events) && e !in events
  {
    var all := events + [e];
    assert forall i | 0 <= i < |events| :: all[i] == events[i];
    assert all[|events|] == e;
  }

  lemma {:induction false} AdmittedMembers(history: seq<Event>, events: seq<Event>)
    ensures forall e :: e in Admit(history, events) <==> e in history || e in events
  {
    if |events| > 0 {
      assert events == events[..|events| - 1] + [events[|events| - 1]];
      AdmittedMembers(history, events[..|events| - 1]);
    }
  }

  /** In order, a history is the selection of everything its chunks cover. */
  lemma {:induction false} InOrderHistory(chain: seq<Event>, chunks: seq<(nat, nat)>)
    requires ValidChain(chain) && InOrder(chain, chunks)
    ensures HistoryOf(chain, chunks) == Select(chain, ChunkSet(chain, chunks))
  {
    hide Admit, Fetch, Select, NoRepeats, InRange;
    if |chunks| == 0 {
      SelectNothing(chain, ChunkSet(chain, []));
    } else {
      var before := chunks[..|chunks| - 1];
      var (lo, hi) := chunks[|chunks| - 1];
      var history, earlier, range := HistoryOf(chain, before), ChunkSet(chain, before), RangeSet(chain, lo, hi);
      InOrderHistory(chain, before);
      HistoryOnce(chain, before);
      FetchMembers(chain, lo, hi);
      FetchIsSelect(chain, lo, hi, range);
      FetchNoRepeats(chain, lo, hi);
      AdmitSelected(history, chain, range, range - earlier);
      SelectUnion(chain, earlier, range - earlier);
      forall e
        ensures InChunks(e, chunks) <==> InChunks(e, before) || InRange(e, lo, hi)
      {
        InChunksLast(e, chunks);
      }
      assert earlier + (range - earlier) == ChunkSet(chain, chunks);
    }
  }

  predicate LedgerSorted(events: seq<Event>) {
    forall i, j | 0 <= i < j < |events| :: events[i].ledger <= events[j].ledger
  }

  lemma {:induction false} AdmitPrefix(history: seq<Event>, events: seq<Event>)
    ensures |history| <= |Admit(history, events)| && Admit(history, events)[..|history|] == history
  {
    if |events| > 0 {
      AdmitPrefix(history, events[..|events| - 1]);
    }
  }

  lemma {:induction false} FetchSorted(chain: seq<Event>, lo: nat, hi: nat)
    requires ValidChain(chain)
    ensures LedgerSorted(Fetch(chain, lo, hi))
  {
    if |chain| > 0 {
      var before, last := chain[..|chain| - 1], chain[|chain| - 1];
      FetchSorted(before, lo, hi);
      FetchMembers(before, lo, hi);
      forall e | e in before
        ensures e.ledger <= last.ledger
      {
        var i :| 0 <= i < |before| && before[i] == e;
        assert chain[i] == e;
      }
    }
  }

  /** A ledger is indexed whole, so a new event is never from the ledger of an old one. */
  lemma NewLedger(chain: seq<Event>, chunks: seq<(nat, nat)>, e: Event, h: Event)
    requires e in chain && e !in HistoryOf(chain, chunks) && h in HistoryOf(chain, chunks)
    ensures h.ledger != e.ledger
  {
    HistoryOnce(chain, chunks);
    var i :| 0 <= i < |chunks| && InRange(h, chunks[i].0, chunks[i].1);
    if h.ledger == e.ledger {
      assert InRange(e, chunks[i].0, chunks[i].1);
    }
  }

  lemma {:induction false} SortedMeansInOrder(chain: seq<Event>, chunks: seq<(nat, nat)>)
    requires ValidChain(chain) && LedgerSorted(HistoryOf(chain, chunks))
    ensures InOrder(chain, chunks)
  {
    hide Admit, Fetch, ValidChain;
    if |chunks| > 0 {
      var before := chunks[..|chunks| - 1];
      var (lo, hi) := chunks[|chunks| - 1];
      var earlier, all := HistoryOf(chain, before), HistoryOf(chain, chunks);
      AdmitPrefix(earlier, Fetch(chain, lo, hi));
      assert forall i | 0 <= i < |earlier| :: earlier[i] == all[i];
      SortedMeansInOrder(chain, before);
      AdmittedMembers(earlier, Fetch(chain, lo, hi));
      FetchMembers(chain, lo, hi);
      forall e, h | e in Fetch(chain, lo, hi) && h in earlier && e !in earlier
        ensures h.ledger < e.ledger
      {
        var i :| 0 <= i < |earlier| && earlier[i] == h;
        var j :| 0 <= j < |all| && all[j] == e;
        NewLedger(chain, before, e, h);
      }
    }
  }

  /**
   * Exactly when history and positions of a run are those of one uninterrupted pass over a span of ledgers,
   * for any ranges, chunk sizes, crashes and repetitions: every event that a chunk adds comes from a later
   * ledger than all those added before it, and the chunks cover the events of the span and no others.
   */
  lemma OnePassIff(chain: seq<Event>, actions: seq<Action>, lo: nat, hi: nat)
    requires ValidChain(chain)
    ensures var db := Run(chain, actions);
      && (db.history == Fetch(chain, lo, hi) <==>
            && InOrder(chain, Committed(actions))
            && forall e | e in chain :: InRange(e, lo, hi) <==> InChunks(e, Committed(actions)))
      && (db.history == Fetch(chain, lo, hi) ==> db.positions == Balances(Fetch(chain, lo, hi)))
  {
    hide Run, Committed, HistoryOf, Fetch, InOrder, InChunks, Good, ValidChain, InRange, Select, NoRepeats;
    var chunks := Committed(actions);
    TablesFollowCommitted(chain, actions);
    FetchMembers(chain, lo, hi);
    HistoryOnce(chain, chunks);
    if HistoryOf(chain, chunks) == Fetch(chain, lo, hi) {
      FetchSorted(chain, lo, hi);
      SortedMeansInOrder(chain, chunks);
    }
    if InOrder(chain, chunks) && forall e | e in chain :: InRange(e, lo, hi) <==> InChunks(e, chunks) {
      InOrderHistory(chain, chunks);
      FetchIsSelect(chain, lo, hi, ChunkSet(chain, chunks));
    }
  }

  /** The two-ledger chain of the runs below: a deposit of ten, then its withdrawal. */
  function InAndOut(): seq<Event> {
    [Event(1, 1, 0, 1, 7, 9, 10, 0)] + [Event(2, 2, 0, 2, 7, 9, -10, 0)]
  }

  /**
   * A run that indexes the second ledger first, as a poll past dropped ledgers and a later replay do: the
   * withdrawal is clamped, and the position ends ten too high for good.
   */
  lemma OrderMatters()
    ensures var chain := InAndOut();
      var db := Run(chain, [Index(2, 2, 1, 1)] + [Index(1, 1, 1, 1)]);
      && ValidChain(chain) && |db.history| == |chain|
      && (7, 9) in db.positions && db.positions[(7, 9)] == Holding(10, 0)
      && (7, 9) in Balances(chain) && Balances(chain)[(7, 9)] == Holding(0, 0)
  {
    hide Run, Committed, HistoryOf, Balances, Good;
    TablesFollowCommitted(InAndOut(), [Index(2, 2, 1, 1)] + [Index(1, 1, 1, 1)]);
    OutOfOrderCommitted();
    OutOfOrderHistory();
    InAndOutBalances();
  }

  lemma OutOfOrderCommitted()
    ensures Committed([Index(2, 2, 1, 1)] + [Index(1, 1, 1, 1)]) == [(2, 2)] + [(1, 1)]
  {
    hide Chunks;
    assert [] + [Index(2, 2, 1, 1)] == [Index(2, 2, 1, 1)] && [] + [(2, 2)] == [(2, 2)];
    assert Committed([]) == [];
    CommittedAppend([], Index(2, 2, 1, 1));
    CommittedAppend([Index(2, 2, 1, 1)], Index(1, 1, 1, 1));
    OneChunk(2);
    OneChunk(1);
  }

  lemma OutOfOrderHistory()
    ensures HistoryOf(InAndOut(), [(2, 2)] + [(1, 1)])
              == [Event(2, 2, 0, 2, 7, 9, -10, 0)] + [Event(1, 1, 0, 1, 7, 9, 10, 0)]
  {
    hide HistoryOf, Fetch, Admit, InAndOut;
    var chain := InAndOut();
    var deposit, withdrawal := Event(1, 1, 0, 1, 7, 9, 10, 0), Event(2, 2, 0, 2, 7, 9, -10, 0);
    NothingYet(chain);
    assert [] + [(2, 2)] == [(2, 2)] && [] + [withdrawal] == [withdrawal];
    HistoryAppend(chain, [], 2, 2);
    HistoryAppend(chain, [(2, 2)], 1, 1);
    InAndOutFetched();
    AdmitNew([], [withdrawal]);
    AdmitNew([withdrawal], [deposit]);
  }

  lemma InAndOutBalances()
    ensures var deposit, withdrawal := Event(1, 1, 0, 1, 7, 9, 10, 0), Event(2, 2, 0, 2, 7, 9, -10, 0);
      var m, n := Balances([withdrawal] + [deposit]), Balances([deposit] + [withdrawal]);
      && (7, 9) in m && m[(7, 9)] == Holding(10, 0)
      && (7, 9) in n && n[(7, 9)] == Holding(0, 0)
  {
    var deposit, withdrawal := Event(1, 1, 0, 1, 7, 9, 10, 0), Event(2, 2, 0, 2, 7, 9, -10, 0);
    BalancesAppend([], withdrawal);
    BalancesAppend([], deposit);
    BalancesAppend([withdrawal], deposit);
    BalancesAppend([deposit], withdrawal);
    assert [] + [withdrawal] == [withdrawal] && [] + [deposit] == [deposit];
  }

  lemma OneChunk(ledger: nat)
    ensures Chunks(ledger, ledger, 1, 1) == [(ledger, ledger)]
  {
    assert Chunks(ledger + 1, ledger, 1, 0) == [];
    assert [(ledger, ledger)] + [] == [(ledger, ledger)];
  }

  lemma InAndOutFetched()
    ensures Fetch(InAndOut(), 2, 2) == [Event(2, 2, 0, 2, 7, 9, -10, 0)]
    ensures Fetch(InAndOut(), 1, 1) == [Event(1, 1, 0, 1, 7, 9, 10, 0)]
  {
    var deposit := [Event(1, 1, 0, 1, 7, 9, 10, 0)];
    assert InAndOut()[..1] == deposit && deposit[..0] == [];
    assert Fetch([], 1, 1) == [] && Fetch([], 2, 2) == [];
    assert Fetch(deposit, 2, 2) == [] && Fetch(deposit, 1, 1) == deposit;
  }

  // ---------------------------------------------------------------- chunks and resumption

  /** The first chunk, then the chunks of the rest. */
  lemma ChunksHead(lo: nat, hi: nat, size: nat, limit: nat)
    requires size > 0 && limit > 0 && lo <= hi
    ensures var chunks, rest := Chunks(lo, hi, size, limit), Chunks(lo + size, hi, size, limit - 1);
      && |chunks| == |rest| + 1 && chunks[0] == (lo, Min(lo + size - 1, hi))
      && forall i | 0 < i < |chunks| :: chunks[i] == rest[i - 1]
  {
  }

  lemma {:induction false} ChunksAbove(lo: nat, hi: nat, size: nat, limit: nat, i: nat)
    requires size > 0 && i < |Chunks(lo, hi, size, limit)|
    ensures var chunk := Chunks(lo, hi, size, limit)[i];
      lo <= chunk.0 <= chunk.1 <= hi
    decreases limit
  {
    ChunksHead(lo, hi, size, limit);
    if i > 0 {
      ChunksAbove(lo + size, hi, size, limit - 1, i - 1);
    }
  }

  /** The chunk that a ledger of the range falls into. */
  function ChunkIndex(lo: nat, size: nat, ledger: nat): nat
    requires size > 0 && lo <= ledger
    decreases ledger - lo
  {
    if ledger < lo + size then 0 else 1 + ChunkIndex(lo + size, size, ledger)
  }

  /** An uninterrupted range run covers every ledger of the range by exactly one chunk. */
  lemma {:induction false} ChunksPartition(lo: nat, hi: nat, size: nat, limit: nat, ledger: nat, i: nat)
    requires size > 0 && hi < lo + limit && lo <= ledger <= hi
    ensures var chunks := Chunks(lo, hi, size, limit);
      && ChunkIndex(lo, size, ledger) < |chunks|
      && (i < |chunks| ==> (chunks[i].0 <= ledger <= chunks[i].1 <==> i == ChunkIndex(lo, size, ledger)))
    decreases limit
  {
    ChunksHead(lo, hi, size, limit);
    if ledger >= lo + size {
      ChunksPartition(lo + size, hi, size, limit - 1, ledger, if i > 0 then i - 1 else 0);
    } else if 0 < i < |Chunks(lo, hi, size, limit)| {
      ChunksAbove(lo + size, hi, size, limit - 1, i - 1);
    }
  }

  lemma ReachedAppend(origin: nat, chunks: seq<(nat, nat)>, last: (nat, nat))
    ensures Reached(origin, chunks + [last]) == Max(Reached(origin, chunks), last.1 + 1)
    ensures Contiguous(origin, chunks + [last]) <==>
      Contiguous(origin, chunks) && origin <= last.0 <= last.1 && last.0 <= Reached(origin, chunks)
  {
    assert (chunks + [last])[..|chunks|] == chunks;
  }

  /** A range run that starts contiguously stays so, chunk after chunk, wherever it dies. */
  lemma {:induction false} RangeRunContiguous(origin: nat, done: seq<(nat, nat)>, lo: nat, hi: nat, size: nat, limit: nat)
    requires size > 0 && Contiguous(origin, done) && origin <= lo && (lo <= hi ==> lo <= Reached(origin, done))
    ensures Contiguous(origin, done + Chunks(lo, hi, size, limit))
    decreases limit
  {
    hide Contiguous, Reached;
    if limit == 0 || lo > hi {
      assert done + [] == done;
    } else {
      var more := done + [(lo, Min(lo + size - 1, hi))];
      ReachedAppend(origin, done, (lo, Min(lo + size - 1, hi)));
      RangeRunContiguous(origin, more, lo + size, hi, size, limit - 1);
      Regroup(done, (lo, Min(lo + size - 1, hi)), Chunks(lo + size, hi, size, limit - 1));
    }
  }

  /** The last ledger that the poller takes as indexed. */
  function LastLedger(checkpoint: nat, startLedger: nat, oldestLedger: nat): nat
    requires startLedger > 0
  {
    var last := if checkpoint == 0 then startLedger - 1 else checkpoint;
    if last + 1 < oldestLedger then oldestLedger - 1 else last
  }

  /** The checkpoint is the end of the last committed chunk. */
  lemma {:induction false} IndexRangeCheckpoint(chain: seq<Event>, db: DB, done: seq<(nat, nat)>, lo: nat, hi: nat, size: nat, limit: nat)
    requires size > 0 && (limit > 0 && lo <= hi ==> lo > 0)
    requires db.checkpoint == (if |done| == 0 then 0 else done[|done| - 1].1)
    ensures var all := done + Chunks(lo, hi, size, limit);
      IndexRange(chain, db, lo, hi, size, limit).checkpoint == if |all| == 0 then 0 else all[|all| - 1].1
    decreases limit
  {
    hide Fetch, ProcessEvents;
    if limit == 0 || lo > hi {
      assert done + [] == done;
    } else {
      var end := Min(lo + size - 1, hi);
      var more := done + [(lo, end)];
      IndexRangeCheckpoint(chain, ChunkProcessed(db, Fetch(chain, lo, end), end), more, lo + size, hi, size, limit - 1);
      Regroup(done, (lo, Min(lo + size - 1, hi)), Chunks(lo + size, hi, size, limit - 1));
    }
  }

  /** Every range that commits anything starts at or after the first ledger there is. */
  predicate FromOne(actions: seq<Action>) {
    forall i | 0 <= i < |actions| ::
      actions[i].Index? && actions[i].size > 0 && actions[i].limit > 0 && actions[i].lo <= actions[i].hi ==> actions[i].lo > 0
  }

  lemma {:induction false} ContiguousPrefix(origin: nat, first: seq<(nat, nat)>, second: seq<(nat, nat)>)
    requires Contiguous(origin, first + second)
    ensures Contiguous(origin, first) && (|second| > 0 ==> origin <= second[0].0)
  {
    if |second| == 0 {
      assert first + second == first;
    } else {
      var before := second[..|second| - 1];
      assert (first + second)[..|first + second| - 1] == first + before;
      ContiguousPrefix(origin, first, before);
    }
  }

  /** Contiguous runs do. */
  lemma {:induction false} ContiguousFromOne(origin: nat, actions: seq<Action>)
    requires origin > 0 && Contiguous(origin, Committed(actions))
    ensures FromOne(actions)
  {
    hide Contiguous, Chunks;
    if |actions| > 0 {
      var before, last := actions[..|actions| - 1], actions[|actions| - 1];
      var more := if last.Index? && last.size > 0 then Chunks(last.lo, last.hi, last.size, last.limit) else [];
      assert Committed(actions) == Committed(before) + more;
      ContiguousPrefix(origin, Committed(before), more);
      ContiguousFromOne(origin, before);
      if last.Index? && last.size > 0 && last.limit > 0 && last.lo <= last.hi {
        ChunksHead(last.lo, last.hi, last.size, last.limit);
      }
    }
  }

  lemma {:induction false} CheckpointIsLastChunk(chain: seq<Event>, actions: seq<Action>)
    requires FromOne(actions)
    ensures var all := Committed(actions);
      Run(chain, actions).checkpoint == if |all| == 0 then 0 else all[|all| - 1].1
  {
    hide IndexRange;
    if |actions| > 0 {
      var before, last := actions[..|actions| - 1], actions[|actions| - 1];
      CheckpointIsLastChunk(chain, before);
      match last {
        case Index(lo, hi, size, limit) =>
          if size > 0 {
            IndexRangeCheckpoint(chain, Run(chain, before), Committed(before), lo, hi, size, limit);
          } else {
            assert Committed(before) + [] == Committed(before);
          }
        case _ => assert Committed(before) + [] == Committed(before);
      }
    }
  }

  lemma {:induction false} LastChunkWithinReach(origin: nat, chunks: seq<(nat, nat)>)
    requires Contiguous(origin, chunks)
    ensures origin <= Reached(origin, chunks)
    ensures |chunks| > 0 ==> origin <= chunks[|chunks| - 1].1 < Reached(origin, chunks)
  {
    if |chunks| > 0 {
      LastChunkWithinReach(origin, chunks[..|chunks| - 1]);
    }
  }

  /**
   * Resuming from the checkpoint never skips: after any contiguous run, crashes and replays of covered ranges
   * included, the next poll starts within or right after what is covered, unless the node has dropped the
   * ledgers in between; so the resumed run, wherever it dies, is contiguous again.
   */
  lemma ResumeIsContiguous(chain: seq<Event>, startLedger: nat, actions: seq<Action>, oldest: nat, latest: nat, size: nat, limit: nat)
    requires startLedger > 0 && size > 0 && Contiguous(startLedger, Committed(actions))
    requires var last := LastLedger(Run(chain, actions).checkpoint, startLedger, 0);
      oldest <= last + 1
    ensures var last := LastLedger(Run(chain, actions).checkpoint, startLedger, oldest);
      Contiguous(startLedger, Committed(actions + [Index(last + 1, latest, size, limit)]))
  {
    hide Run, Contiguous, Reached, Chunks;
    ContiguousFromOne(startLedger, actions);
    CheckpointIsLastChunk(chain, actions);
    LastChunkWithinReach(startLedger, Committed(actions));
    var last := LastLedger(Run(chain, actions).checkpoint, startLedger, oldest);
    RangeRunContiguous(startLedger, Committed(actions), last + 1, latest, size, limit);
    CommittedAppend(actions, Index(last + 1, latest, size, limit));
  }

  /** The poller's next run, or anything that indexes nothing, after a poll that saw the node's state. */
  datatype Later = Poll(oldest: nat, latest: nat, size: nat, limit: nat) | Idle(clean: bool, ms: nat)

  function LaterAction(db: DB, startLedger: nat, later: Later): Action
    requires startLedger > 0
  {
    match later
    case Poll(oldest, latest, size, limit) => Index(LastLedger(db.checkpoint, startLedger, oldest) + 1, latest, size, limit)
    case Idle(clean, ms) => if clean then CleanDedup else Tick(ms)
  }

  function AfterPolls(chain: seq<Event>, db: DB, startLedger: nat, polls: seq<Later>): DB
    requires startLedger > 0
  {
    if |polls| == 0 then db
    else
      var before := AfterPolls(chain, db, startLedger, polls[..|polls| - 1]);
      Next(chain, before, LaterAction(before, startLedger, polls[|polls| - 1]))
  }

  lemma {:induction false} ProcessedMembers(db: DB, events: seq<Event>)
    ensures forall e | e in ProcessEvents(db, events).history :: e in db.history || e in events
    ensures ProcessEvents(db, events).checkpoint == db.checkpoint
  {
    hide IsDuplicate, ApplyDelta;
    if |events| > 0 {
      ProcessedMembers(db, events[..|events| - 1]);
    }
  }

  /** A range run adds nothing below its start and moves the checkpoint nowhere below it. */
  lemma {:induction false} IndexRangeAbove(chain: seq<Event>, db: DB, lo: nat, hi: nat, size: nat, limit: nat, floor: nat)
    requires size > 0 && floor < lo && floor <= db.checkpoint
    ensures var t := IndexRange(chain, db, lo, hi, size, limit);
      && floor <= t.checkpoint
      && forall e | e in t.history :: e in db.history || floor < e.ledger
    decreases limit
  {
    hide Fetch, ProcessEvents;
    if limit > 0 && lo <= hi {
      var end := Min(lo + size - 1, hi);
      FetchMembers(chain, lo, end);
      ProcessedMembers(db, Fetch(chain, lo, end));
      IndexRangeAbove(chain, ChunkProcessed(db, Fetch(chain, lo, end), end), lo + size, hi, size, limit - 1, floor);
    }
  }

  /**
   * Polling never looks back: once the checkpoint has passed a ledger, an event of that ledger that is not in
   * the history never gets there by polling, however often and however far the polls go.
   */
  lemma {:induction false} SkippedForGood(chain: seq<Event>, db: DB, startLedger: nat, polls: seq<Later>, e: Event)
    requires startLedger > 0 && 0 < db.checkpoint && e !in db.history && e.ledger <= db.checkpoint
    ensures e !in AfterPolls(chain, db, startLedger, polls).history
    ensures db.checkpoint <= AfterPolls(chain, db, startLedger, polls).checkpoint
  {
    hide IndexRange;
    if |polls| > 0 {
      var before, last := AfterPolls(chain, db, startLedger, polls[..|polls| - 1]), polls[|polls| - 1];
      SkippedForGood(chain, db, startLedger, polls[..|polls| - 1], e);
      if last.Poll? && last.size > 0 {
        IndexRangeAbove(chain, before, LastLedger(before.checkpoint, startLedger, last.oldest) + 1, last.latest, last.size,
          last.limit, db.checkpoint);
      }
    }
  }

  /**
   * A replay may start past the covered range, and then the poller goes on from its end: after ledger 1 and a
   * replay of ledger 5, no later poll ever indexes the ledgers 2 to 4.
   */
  lemma ReplayPastTheCoveredRange(chain: seq<Event>, polls: seq<Later>, e: Event)
    requires ValidChain(chain) && 2 <= e.ledger <= 4
    ensures var db := Run(chain, [Index(1, 1, 1, 1)] + [Index(5, 5, 1, 1)]);
      && db.checkpoint == 5 && LastLedger(db.checkpoint, 1, 0) + 1 == 6
      && e !in AfterPolls(chain, db, 1, polls).history
  {
    hide Run, Committed, Good, Chunks;
    var first, second := Index(1, 1, 1, 1), Index(5, 5, 1, 1);
    var actions := [first] + [second];
    NothingCommitted();
    assert [] + [first] == [first] && [] + [(1, 1)] == [(1, 1)];
    CommittedAppend([], first);
    CommittedAppend([first], second);
    OneChunk(1);
    OneChunk(5);
    CheckpointIsLastChunk(chain, actions);
    ExactlyOnce(chain, actions);
    assert !InChunks(e, [(1, 1)] + [(5, 5)]);
    SkippedForGood(chain, Run(chain, actions), 1, polls, e);
  }

  lemma NothingCommitted()
    ensures Committed([]) == []
  {
  }

  lemma CommittedAppend(actions: seq<Action>, action: Action)
    requires action.Index? && action.size > 0
    ensures Committed(actions + [action])
      == Committed(actions) + Chunks(action.lo, action.hi, action.size, action.limit)
  {
    assert (actions + [action])[..|actions|] == actions;
  }

  // ---------------------------------------------------------------- the service

  class IndexerService {
    var now: nat
    var history: seq<Event>
    var dedup: map<nat, nat>
    var positions: Positions
    var checkpoint: nat
    var insertedCounter: nat
    var dedupCounter: nat

    function View(): DB
      reads this
    {
      DB(now, history, dedup, positions, checkpoint)
    }

    constructor ()
      ensures View() == EMPTY && insertedCounter == 0 && dedupCounter == 0
    {
      now, history, dedup, positions, checkpoint := 0, [], map[], map[], 0;
      insertedCounter, dedupCounter := 0, 0;
    }

    /** The lookaside table first, then a scan of the history. */
    method IsEventDuplicate(e: Event) returns (duplicate: bool)
      ensures duplicate <==> IsDuplicate(View(), e)
    {
      if e.id in dedup && dedup[e.id] > now {
        return true;
      }
      var i := 0;
      while i < |history|
        invariant 0 <= i <= |history|
        invariant forall j | 0 <= j < i :: !SameEvent(history[j], e)
      {
        if SameEvent(history[i], e) {
          return true;
        }
        i := i + 1;
      }
      return false;
    }

    method ApplyPositionDelta(user: nat, asset: nat, deposited: int, borrowed: int)
      modifies this`positions
      ensures forall e: Event | e.user == user && e.asset == asset && e.deposited == deposited && e.borrowed == borrowed ::
                positions == ApplyDelta(old(positions), e)
    {
      var key := (user, asset);
      if key !in positions {
        positions := positions[key := Holding(0, 0)];
      }
      var nextDeposited := positions[key].deposited + deposited;
      var nextBorrowed := positions[key].borrowed + borrowed;
      if nextDeposited < 0 {
        nextDeposited := 0;
      }
      if nextBorrowed < 0 {
        nextBorrowed := 0;
      }
      positions := positions[key := Holding(nextDeposited, nextBorrowed)];
    }

    method ProcessEventSafe(e: Event) returns (isNew: bool)
      modifies this`history, this`positions, this`dedup
      ensures View() == ProcessEvent(old(View()), e)
      ensures isNew <==> !IsDuplicate(old(View()), e)
    {
      var duplicate := IsEventDuplicate(e);
      if duplicate {
        return false;
      }
      history := history + [e];
      ApplyPositionDelta(e.user, e.asset, e.deposited, e.borrowed);
      dedup := dedup[e.id := now + DEDUP_TTL_MS];
      return true;
    }

    method ProcessChunk(events: seq<Event>, chunkEnd: nat) returns (inserted: nat, alreadyProcessed: nat)
      modifies this`history, this`positions, this`dedup, this`checkpoint
      ensures View() == ChunkProcessed(old(View()), events, chunkEnd)
      ensures inserted + alreadyProcessed == |events| && |history| == |old(history)| + inserted
    {
      inserted, alreadyProcessed := 0, 0;
      var i := 0;
      while i < |events|
        invariant 0 <= i <= |events|
        invariant View() == ProcessEvents(old(View()), events[..i])
        invariant inserted + alreadyProcessed == i && |history| == |old(history)| + inserted
      {
        assert events[..i + 1][..i] == events[..i];
        var isNew := ProcessEventSafe(events[i]);
        if isNew {
          inserted := inserted + 1;
        } else {
          alreadyProcessed := alreadyProcessed + 1;
        }
        i := i + 1;
      }
      assert events[..i] == events;
      if chunkEnd > 0 {
        checkpoint := chunkEnd;
      }
    }

    /**
     * Chunk by chunk over a range; `limit` is where the process dies. The counters add up what the history
     * gained and what was skipped.
     */
    method IndexEventsInChunks(chain: seq<Event>, startLedger: nat, endLedger: nat, size: nat, limit: nat)
      returns (totalInserted: nat, totalAlreadyProcessed: nat)
      requires size > 0
      modifies this
      ensures View() == IndexRange(chain, old(View()), startLedger, endLedger, size, limit)
      ensures |history| == |old(history)| + totalInserted
      ensures insertedCounter == old(insertedCounter) + totalInserted
      ensures dedupCounter == old(dedupCounter) + totalAlreadyProcessed
    {
      hide ChunkProcessed, Fetch;
      totalInserted, totalAlreadyProcessed := 0, 0;
      var chunkStart: nat, left: nat := startLedger, limit;
      while chunkStart <= endLedger && left > 0
        invariant IndexRange(chain, View(), chunkStart, endLedger, size, left)
                    == IndexRange(chain, old(View()), startLedger, endLedger, size, limit)
        invariant |history| == |old(history)| + totalInserted
        invariant insertedCounter == old(insertedCounter) + totalInserted
        invariant dedupCounter == old(dedupCounter) + totalAlreadyProcessed
        decreases left
      {
        var chunkEnd := Min(chunkStart + size - 1, endLedger);
        var inserted, alreadyProcessed := ProcessChunk(Fetch(chain, chunkStart, chunkEnd), chunkEnd);
        totalInserted := totalInserted + inserted;
        totalAlreadyProcessed := totalAlreadyProcessed + alreadyProcessed;
        insertedCounter := insertedCounter + inserted;
        dedupCounter := dedupCounter + alreadyProcessed;
        chunkStart := chunkStart + size;
        left := left - 1;
      }
    }
  }
}
