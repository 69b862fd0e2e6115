/** rewindFrom truncates the ledger's chain; rebuildFromJournal replays it and changes nothing else. */
module RebuildLedger {
  import opened Wrappers
  import opened Domain
  import opened ProjectionTables
  import opened Listings
  import opened JournalDatabase
  import opened Ledger

  // ---- rewinding ----

  /** How many heights from scanStart on lie below `from`. */
  function KeptLength(length: nat, scanStart: nat, from: nat): (k: nat)
    ensures k <= length
  {
    if from <= scanStart then 0 else if from - scanStart < length then from - scanStart else length
  }

  /** The chain below height `from`; orphaned blocks stay in the archive. */
  function Truncate(l: Ledger, scanStart: nat, from: nat): Ledger {
    l.(canon := l.canon[..KeptLength(|l.canon|, scanStart, from)])
  }

  lemma CanonBelow(l: Ledger, scanStart: nat, from: nat, h: Hash)
    requires WellFormed(l, scanStart) && h in l.archive
    ensures h in Truncate(l, scanStart, from).canon <==> h in l.canon && l.archive[h].header.number < from
  {
    var k := KeptLength(|l.canon|, scanStart, from);
    assert forall i :: 0 <= i < |l.canon| ==> l.archive[l.canon[i]].header.number == scanStart + i;
    if h in l.canon && l.archive[h].header.number < from {
      var i :| 0 <= i < |l.canon| && l.canon[i] == h;
      assert l.canon[..k][i] == h;
    }
  }

  lemma TruncateIsWellFormed(l: Ledger, scanStart: nat, from: nat)
    requires WellFormed(l, scanStart)
    ensures WellFormed(Truncate(l, scanStart, from), scanStart)
    ensures History(Truncate(l, scanStart, from)) == History(l)[..KeptLength(|l.canon|, scanStart, from)]
  {
  }

  lemma OrphanedBlocks(blocks: map<Hash, BlockRow>, l: Ledger, scanStart: nat, from: nat, scope: string)
    requires WellFormed(l, scanStart) && BlocksRepresent(blocks, l, scope)
    ensures BlocksRepresent(Orphan(blocks, from), Truncate(l, scanStart, from), scope)
  {
    forall h <- l.archive
      ensures Orphan(blocks, from)[h] == BlockRowOf(l.archive[h], h in Truncate(l, scanStart, from).canon, scope)
    {
      CanonBelow(l, scanStart, from, h);
    }
  }

  lemma PreviousIsLastKept(blocks: map<Hash, BlockRow>, l: Ledger, scanStart: nat, from: nat, scope: string,
                           previous: Option<Checkpoint>)
    requires WellFormed(l, scanStart) && BlocksRepresent(blocks, l, scope)
    requires forall h <- l.canon :: h in l.archive ==> l.archive[h].header.number < from
    requires PreviousCheckpoint(blocks, from, previous)
    ensures previous == CheckpointOf(l, scanStart)
  {
    var n := |l.canon|;
    if n == 0 {
      assert forall h <- blocks :: !blocks[h].canonical;
    } else {
      var top := l.canon[n - 1];
      assert top in l.canon && Candidate(blocks, from, top);
      var cp := previous.value;
      assert cp.hash in l.canon;
      var i :| 0 <= i < n && l.canon[i] == cp.hash;
      assert blocks[top].number <= blocks[cp.hash].number;
    }
  }

  /** rewindFrom keeps exactly the canonical blocks below `from` and moves the checkpoint to the last of them. */
  lemma RewindTruncates(db: Db, l: Ledger, scanStart: nat, from: nat, previous: Option<Checkpoint>, allow: bool)
    requires Represents(db, l, scanStart)
    requires PreviousCheckpoint(Orphan(db.blocks, from), from, previous)
    ensures Represents(Rewound(db, allow, from, previous), Truncate(l, scanStart, from), scanStart)
  {
    var kept := Truncate(l, scanStart, from);
    TruncateIsWellFormed(l, scanStart, from);
    OrphanedBlocks(db.blocks, l, scanStart, from, db.logScope);
    forall h <- kept.canon ensures h in kept.archive && kept.archive[h].header.number < from {
      CanonBelow(l, scanStart, from, h);
    }
    PreviousIsLastKept(Orphan(db.blocks, from), kept, scanStart, from, db.logScope, previous);
  }

  // ---- listings ----

  function RowsOf(es: seq<OrderedEvent>): (r: seq<EventRow>)
    ensures |r| == |es| && forall i :: 0 <= i < |es| ==> r[i] == RowOf(es[i])
  {
    seq(|es|, i requires 0 <= i < |es| => RowOf(es[i]))
  }

  lemma RowInRows(es: seq<OrderedEvent>, r: EventRow)
    ensures r in RowsOf(es) <==> exists e <- es :: RowOf(e) == r
  {
    if r in RowsOf(es) {
      var i :| 0 <= i < |es| && RowsOf(es)[i] == r;
      assert es[i] in es && RowOf(es[i]) == r;
    }
    if e :| e in es && RowOf(e) == r {
      var i :| 0 <= i < |es| && es[i] == e;
      assert RowsOf(es)[i] == r;
    }
  }

  lemma StoredRow(db: Db, l: Ledger, scanStart: nat, k: EventKey)
    requires Represents(db, l, scanStart) && k in db.events
    ensures k.blockHash in l.archive
    ensures exists e <- l.archive[k.blockHash].events :: KeyOf(e) == k && db.events[k] == RowOf(e)
  {
    assert ArchivedKey(l.archive, k);
    var i :| 0 <= i < |l.archive[k.blockHash].events| && KeyOf(l.archive[k.blockHash].events[i]) == k;
    assert l.archive[k.blockHash].events[i] in l.archive[k.blockHash].events;
  }

  /** The query for one block returns the logs archived for it. */
  lemma BlockQuery(db: Db, l: Ledger, scanStart: nat, h: Hash, q: seq<EventRow>)
    requires Represents(db, l, scanStart) && h in l.archive
    ensures ListsBlock(q, db.events, h) <==> q == RowsOf(l.archive[h].events)
  {
    var es := l.archive[h].events;
    forall r ensures r in RowsOf(es) <==> r in iset k <- db.events | k.blockHash == h :: db.events[k] {
      RowInRows(es, r);
      if k :| k in db.events && k.blockHash == h && db.events[k] == r {
        StoredRow(db, l, scanStart, k);
      }
    }
    assert ListsBlock(RowsOf(es), db.events, h);
    if ListsBlock(q, db.events, h) {
      SortedListingIsUnique(q, RowsOf(es), RowInBlockBefore);
    }
  }

  lemma HistoryIsConsecutive(l: Ledger, scanStart: nat)
    requires WellFormed(l, scanStart)
    ensures Consecutive(History(l))
  {
  }

  lemma ArchivedRow(db: Db, l: Ledger, scanStart: nat, h: Hash, e: OrderedEvent)
    requires Represents(db, l, scanStart) && h in l.archive && e in l.archive[h].events
    ensures KeyOf(e) in db.events && db.events[KeyOf(e)] == RowOf(e) && KeyOf(e).blockHash == h
  {
    assert EventsRepresent(db.events, l.archive);
    hide EventsRepresent, RowOf;
    assert WellFormedLog(l.archive[h]);
    var i :| 0 <= i < |l.archive[h].events| && l.archive[h].events[i] == e;
  }

  lemma HistoryRowIsCanonical(db: Db, l: Ledger, scanStart: nat, e: OrderedEvent)
    requires Represents(db, l, scanStart) && e in AllEvents(History(l))
    ensures CanonicalEvent(db, KeyOf(e)) && db.events[KeyOf(e)] == RowOf(e)
  {
    var logs := History(l);
    EventHasLog(logs, e);
    var i :| 0 <= i < |logs| && e in logs[i].events;
    ArchivedRow(db, l, scanStart, l.canon[i], e);
    hide AllEvents, RowOf, KeyOf, EventsRepresent;
    assert l.canon[i] in l.canon;
  }

  lemma CanonicalRowIsHistory(db: Db, l: Ledger, scanStart: nat, k: EventKey)
    requires Represents(db, l, scanStart) && CanonicalEvent(db, k)
    ensures exists e <- AllEvents(History(l)) :: db.events[k] == RowOf(e)
  {
    StoredRow(db, l, scanStart, k);
    var e :| e in l.archive[k.blockHash].events && KeyOf(e) == k && db.events[k] == RowOf(e);
    var i :| 0 <= i < |l.canon| && l.canon[i] == k.blockHash;
    assert e in History(l)[i].events;
    EventHasLog(History(l), e);
  }

  lemma CanonicalRow(db: Db, l: Ledger, scanStart: nat, r: EventRow)
    requires Represents(db, l, scanStart)
    ensures r in RowsOf(AllEvents(History(l))) <==> exists k :: CanonicalEvent(db, k) && db.events[k] == r
  {
    hide AllEvents, History, RowOf, BlocksRepresent, EventsRepresent;
    var es := AllEvents(History(l));
    RowInRows(es, r);
    if e :| e in es && RowOf(e) == r {
      HistoryRowIsCanonical(db, l, scanStart, e);
    }
    if k :| CanonicalEvent(db, k) && db.events[k] == r {
      CanonicalRowIsHistory(db, l, scanStart, k);
    }
  }

  /** The journal query returns the canonical history's events, in one order only. */
  lemma JournalQuery(db: Db, l: Ledger, scanStart: nat, q: seq<EventRow>)
    requires Represents(db, l, scanStart) && ListsJournal(q, db)
    ensures RowEvents(q) == AllEvents(History(l))
  {
    var es := AllEvents(History(l));
    var listed := RowsOf(es);
    HistoryIsConsecutive(l, scanStart);
    JournalIsSorted(History(l));
    assert Sorted(listed, RowBefore);
    forall r ensures r in q <==> r in listed {
      CanonicalRow(db, l, scanStart, r);
    }
    NoTiesMeansSorted(q, listed, RowBefore);
    SortedListingIsUnique(q, listed, RowBefore);
    RowsAndBack(es);
  }

  lemma RowsAndBack(es: seq<OrderedEvent>)
    ensures RowEvents(RowsOf(es)) == es
  {
  }

  // ---- verification and rebuild ----

  lemma ArchivedEvidence(db: Db, l: Ledger, scanStart: nat, h: Hash)
    requires Represents(db, l, scanStart) && h in l.archive
    ensures BlockEvidence(db, h)
  {
    var q := RowsOf(l.archive[h].events);
    BlockQuery(db, l, scanStart, h, q);
    assert RowEnvelopes(q) == Envelopes(l.archive[h].events);
    forall r <- q ensures Intact(r) {
      RowInRows(l.archive[h].events, r);
    }
    assert EvidenceMatches(db.blocks[h], q);
  }

  lemma CanonicalHeights(db: Db, l: Ledger, scanStart: nat)
    requires Represents(db, l, scanStart) && l.canon != []
    ensures forall i :: 0 <= i < |l.canon| ==> l.canon[i] in db.blocks && db.blocks[l.canon[i]].number == scanStart + i
    ensures ListsHeights(l.canon, db.blocks, db.checkpoint.value.number)
  {
    var q := l.canon;
    assert forall i :: 0 <= i < |q| ==> l.archive[q[i]].header.number == scanStart + i;
    assert forall i :: 0 <= i < |q| ==> db.blocks[q[i]].number == scanStart + i;
    forall h | h in q
      ensures h in db.blocks && db.blocks[h].canonical && db.blocks[h].number <= scanStart + |q| - 1
    {
      var i :| 0 <= i < |q| && q[i] == h;
    }
  }

  /** verifyRebuildSource accepts every database that stands for a ledger. */
  lemma RepresentedSourceIsComplete(db: Db, l: Ledger, scanStart: nat)
    requires Represents(db, l, scanStart)
    ensures SourceComplete(db, scanStart)
  {
    if l.canon != [] {
      CanonicalHeights(db, l, scanStart);
      forall i | 0 <= i < |l.canon| ensures BlockEvidence(db, l.canon[i]) {
        ArchivedEvidence(db, l, scanStart, l.canon[i]);
      }
      assert CompleteChain(db, scanStart, db.checkpoint.value, l.canon);
    }
  }

  /** No refresh of the source is ever asked for while its log scope is unchanged. */
  lemma RepresentedSourceMatches(db: Db, l: Ledger, scanStart: nat)
    requires Represents(db, l, scanStart)
    ensures !SourceMismatch(db)
  {
    forall k <- db.events ensures Intact(db.events[k]) {
      StoredRow(db, l, scanStart, k);
    }
    forall h, q | h in db.blocks && ListsBlock(q, db.events, h) ensures !BlockDiffers(db.blocks[h], q) {
      BlockQuery(db, l, scanStart, h, q);
      assert RowEnvelopes(q) == Envelopes(l.archive[h].events);
    }
  }

  /** A rebuild succeeds exactly when the projectors accept the canonical history. Whatever the projections
      were, they then agree with it; blocks, journal and checkpoint position stay as they were. */
  lemma RebuildRestoresAgreement(db: Db, l: Ledger, scanStart: nat, rows: seq<EventRow>, allow: bool, buildId: nat)
    requires Represents(db, l, scanStart) && ListsJournal(rows, db)
    ensures var out := Rebuild(db, allow, db.logScope, scanStart, buildId, rows);
            && (out.error.None? <==> Replay(EMPTY_TABLES, AllEvents(History(l))).Success?)
            && (out.error.None? ==> Agrees(out.db, l, scanStart))
            && Represents(out.db, l, scanStart)
            && out.db.blocks == db.blocks && out.db.events == db.events && out.db.checkpoint == db.checkpoint
  {
    RepresentedSourceIsComplete(db, l, scanStart);
    JournalQuery(db, l, scanStart, rows);
  }

  /** In a state that agrees with its journal a rebuild changes no projection row. */
  lemma RebuildIsIdempotent(db: Db, l: Ledger, scanStart: nat, rows: seq<EventRow>, allow: bool, buildId: nat)
    requires Agrees(db, l, scanStart) && ListsJournal(rows, db)
    ensures var out := Rebuild(db, allow, db.logScope, scanStart, buildId, rows);
            out.error.None? && out.db.tables == db.tables && out.db.checkpoint == db.checkpoint && Agrees(out.db, l, scanStart)
  {
    RebuildRestoresAgreement(db, l, scanStart, rows, allow, buildId);
  }

  lemma PrefixIsAccepted(t: Tables, logs: seq<BlockLog>, k: nat)
    requires k <= |logs| && Replay(t, AllEvents(logs)).Success?
    ensures Replay(t, AllEvents(logs[..k])).Success?
  {
    assert logs == logs[..k] + logs[k..];
    AllEventsAppend(logs[..k], logs[k..]);
    ReplayAppend(t, AllEvents(logs[..k]), AllEvents(logs[k..]));
  }

  lemma TruncatedIsAccepted(l: Ledger, scanStart: nat, from: nat)
    requires WellFormed(l, scanStart) && Replay(EMPTY_TABLES, AllEvents(History(l))).Success?
    ensures WellFormed(Truncate(l, scanStart, from), scanStart)
    ensures Replay(EMPTY_TABLES, AllEvents(History(Truncate(l, scanStart, from)))).Success?
  {
    TruncateIsWellFormed(l, scanStart, from);
    PrefixIsAccepted(EMPTY_TABLES, History(l), KeptLength(|l.canon|, scanStart, from));
  }

  /** A kept prefix of an accepted history is accepted, so rewinding and rebuilding always succeeds. */
  lemma RewindThenRebuildAgrees(db: Db, l: Ledger, scanStart: nat, from: nat, previous: Option<Checkpoint>,
                                rewound: Db, rows: seq<EventRow>, allow: bool, buildId: nat)
    requires Agrees(db, l, scanStart)
    requires PreviousCheckpoint(Orphan(db.blocks, from), from, previous)
    requires rewound == Rewound(db, allow, from, previous) && ListsJournal(rows, rewound)
    ensures var out := Rebuild(rewound, allow, rewound.logScope, scanStart, buildId, rows);
            out.error.None? && Agrees(out.db, Truncate(l, scanStart, from), scanStart)
  {
    RewindTruncates(db, l, scanStart, from, previous, allow);
    TruncatedIsAccepted(l, scanStart, from);
    RebuildRestoresAgreement(rewound, Truncate(l, scanStart, from), scanStart, rows, allow, buildId);
  }
}
