/** What the database means: an archive of every block ever scanned and the chain of canonical ones.
    Each store operation is shown to be a simple step on that ledger. */
module Ledger {
  import opened Wrappers
  import opened Domain
  import opened ProjectionTables
  import opened JournalDatabase

  datatype BlockLog = BlockLog(header: BlockHeader, events: seq<OrderedEvent>)

  datatype Ledger = Ledger(archive: map<Hash, BlockLog>, canon: seq<Hash>)

  const EMPTY_LEDGER := Ledger(map[], [])

  /** A block's logs carry its identity, in log order, with distinct log indices. */
  ghost predicate WellFormedLog(log: BlockLog) {
    && (forall i :: 0 <= i < |log.events| ==>
          log.events[i].envelope.blockHash == log.header.hash && log.events[i].envelope.blockNumber == log.header.number)
    && (forall i, j :: 0 <= i < j < |log.events| ==> LogBefore(log.events[i].envelope, log.events[j].envelope))
    && (forall i, j :: 0 <= i < j < |log.events| ==> log.events[i].envelope.logIndex != log.events[j].envelope.logIndex)
  }

  ghost predicate WellFormed(l: Ledger, scanStart: nat) {
    && (forall h <- l.archive :: l.archive[h].header.hash == h && WellFormedLog(l.archive[h]))
    && (forall i :: 0 <= i < |l.canon| ==>
          l.canon[i] in l.archive && l.archive[l.canon[i]].header.number == scanStart + i)
    && (forall i :: 0 < i < |l.canon| ==> l.archive[l.canon[i]].header.parentHash == l.canon[i - 1])
  }

  /** The canonical blocks in order: the abstract history. */
  function History(l: Ledger): (logs: seq<BlockLog>)
    requires forall h <- l.canon :: h in l.archive
    ensures |logs| == |l.canon| && forall i :: 0 <= i < |logs| ==> logs[i] == l.archive[l.canon[i]]
  {
    seq(|l.canon|, i requires 0 <= i < |l.canon| => l.archive[l.canon[i]])
  }

  function AllEvents(logs: seq<BlockLog>): seq<OrderedEvent> {
    if logs == [] then [] else logs[0].events + AllEvents(logs[1..])
  }

  function Headers(logs: seq<BlockLog>): (r: seq<BlockHeader>)
    ensures |r| == |logs| && forall i :: 0 <= i < |logs| ==> r[i] == logs[i].header
  {
    seq(|logs|, i requires 0 <= i < |logs| => logs[i].header)
  }

  function BlockRowOf(log: BlockLog, canonical: bool, scope: string): BlockRow {
    BlockRow(log.header.number, log.header.parentHash, log.header.timestamp, canonical, true, scope,
             |log.events|, Digest(Envelopes(log.events)))
  }

  ghost predicate BlocksRepresent(blocks: map<Hash, BlockRow>, l: Ledger, scope: string) {
    && blocks.Keys == l.archive.Keys
    && forall h <- l.archive :: blocks[h] == BlockRowOf(l.archive[h], h in l.canon, scope)
  }

  ghost predicate ArchivedKey(archive: map<Hash, BlockLog>, k: EventKey) {
    k.blockHash in archive && exists i :: 0 <= i < |archive[k.blockHash].events| && KeyOf(archive[k.blockHash].events[i]) == k
  }

  ghost predicate EventsRepresent(events: map<EventKey, EventRow>, archive: map<Hash, BlockLog>) {
    && (forall k <- events :: ArchivedKey(archive, k))
    && (forall h <- archive, e <- archive[h].events :: KeyOf(e) in events && events[KeyOf(e)] == RowOf(e))
  }

  function CheckpointOf(l: Ledger, scanStart: nat): Option<Checkpoint> {
    if l.canon == [] then None else Some(Checkpoint(scanStart + |l.canon| - 1, l.canon[|l.canon| - 1]))
  }

  /** The block table, the journal and the checkpoint are those of the ledger. */
  ghost predicate Represents(db: Db, l: Ledger, scanStart: nat) {
    && WellFormed(l, scanStart)
    && BlocksRepresent(db.blocks, l, db.logScope)
    && EventsRepresent(db.events, l.archive)
    && db.checkpoint == CheckpointOf(l, scanStart)
  }

  /** Replay agreement: the projections are the fold of the canonical journal. */
  ghost predicate Agrees(db: Db, l: Ledger, scanStart: nat) {
    Represents(db, l, scanStart) && Replay(EMPTY_TABLES, AllEvents(History(l))) == Success(db.tables)
  }

  // ---- sequences of block logs ----

  lemma {:induction false} AllEventsAppend(a: seq<BlockLog>, b: seq<BlockLog>)
    ensures AllEvents(a + b) == AllEvents(a) + AllEvents(b)
  {
    if a == [] {
      assert a + b == b;
    } else {
      assert (a + b)[1..] == a[1..] + b;
      AllEventsAppend(a[1..], b);
    }
  }

  lemma {:induction false} EventHasLog(logs: seq<BlockLog>, e: OrderedEvent)
    ensures e in AllEvents(logs) <==> exists i :: 0 <= i < |logs| && e in logs[i].events
  {
    if logs != [] {
      EventHasLog(logs[1..], e);
      assert forall i :: 0 < i < |logs| ==> logs[i] == logs[1..][i - 1];
      assert forall i :: 0 <= i < |logs[1..]| ==> logs[1..][i] == logs[i + 1];
    }
  }

  /** Consecutive well-formed block logs. */
  ghost predicate Consecutive(logs: seq<BlockLog>) {
    && (forall i :: 0 <= i < |logs| ==> WellFormedLog(logs[i]))
    && (forall i :: 0 < i < |logs| ==> logs[i].header.number == logs[0].header.number + i)
  }

  lemma {:induction false} JournalIsSorted(logs: seq<BlockLog>)
    requires Consecutive(logs)
    ensures forall i, j :: 0 <= i < j < |AllEvents(logs)| ==>
              Before(AllEvents(logs)[i].envelope, AllEvents(logs)[j].envelope)
  {
    if logs != [] {
      var rest := logs[1..];
      JournalIsSorted(rest);
      forall e <- AllEvents(rest) ensures e.envelope.blockNumber > logs[0].header.number {
        EventHasLog(rest, e);
      }
      var here, later := logs[0].events, AllEvents(rest);
      assert AllEvents(logs) == here + later;
      forall i, j | 0 <= i < j < |AllEvents(logs)|
        ensures Before(AllEvents(logs)[i].envelope, AllEvents(logs)[j].envelope)
      {
        if j >= |here| {
          assert AllEvents(logs)[j] == later[j - |here|] && later[j - |here|] in later;
        }
      }
    }
  }

  lemma NoEventsElsewhere(es: seq<OrderedEvent>, number: nat)
    requires forall e <- es :: e.envelope.blockNumber != number
    ensures AtHeight(es, number) == []
  {
  }

  lemma {:induction false} AllAtHeight(es: seq<OrderedEvent>, number: nat)
    requires forall e <- es :: e.envelope.blockNumber == number
    ensures AtHeight(es, number) == es
  {
    if es != [] {
      AllAtHeight(es[1..], number);
    }
  }

  lemma {:induction false} AtHeightAppend(a: seq<OrderedEvent>, b: seq<OrderedEvent>, number: nat)
    ensures AtHeight(a + b, number) == AtHeight(a, number) + AtHeight(b, number)
  {
    if a == [] {
      assert a + b == b;
    } else {
      assert (a + b)[1..] == a[1..] + b;
      AtHeightAppend(a[1..], b, number);
    }
  }

  lemma {:induction false} SortOfSorted(es: seq<OrderedEvent>)
    requires forall i, j :: 0 <= i < j < |es| ==> LogBefore(es[i].envelope, es[j].envelope)
    ensures SortLogs(es) == es
  {
    if es != [] {
      SortOfSorted(es[1..]);
      assert |es| > 1 ==> LogBefore(es[0].envelope, es[1].envelope);
    }
  }

  /** For each block of a batch, commit observes exactly that block's logs. */
  lemma {:induction false} BatchLogsPerBlock(logs: seq<BlockLog>, k: nat)
    requires Consecutive(logs) && k < |logs|
    ensures AtHeight(AllEvents(logs), logs[k].header.number) == logs[k].events
  {
    var number := logs[k].header.number;
    var rest := logs[1..];
    AtHeightAppend(logs[0].events, AllEvents(rest), number);
    if k == 0 {
      forall e <- AllEvents(rest) ensures e.envelope.blockNumber != number {
        EventHasLog(rest, e);
      }
      AllAtHeight(logs[0].events, number);
      NoEventsElsewhere(AllEvents(rest), number);
    } else {
      NoEventsElsewhere(logs[0].events, number);
      BatchLogsPerBlock(rest, k - 1);
    }
  }

  lemma ObservedLogsOfBatch(logs: seq<BlockLog>, k: nat)
    requires Consecutive(logs) && k < |logs|
    ensures ObservedLogs(AllEvents(logs), logs[k].header.number) == Envelopes(logs[k].events)
  {
    BatchLogsPerBlock(logs, k);
    SortOfSorted(logs[k].events);
  }
}
