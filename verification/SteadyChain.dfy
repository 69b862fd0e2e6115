/** A chain that stays as it is, and the history an index of it should hold. */
module SteadyChain {
  import opened Domain
  import opened ProjectionTables
  import opened JournalDatabase
  import opened Ledger
  import opened CommitLedger
  import opened RangeBatch
  import opened RebuildLedger

  /** Blocks by height with the logs of each block, the head and the finalized height. */
  datatype Chain = Chain(block: nat -> BlockHeader, eventsOf: Hash -> seq<OrderedEvent>, head: nat, finalized: nat)

  ghost predicate LinkedAt(f: Chain, n: nat) {
    f.block(n).number == n && (n > 0 ==> f.block(n).parentHash == f.block(n - 1).hash)
  }

  /** The headers are the chain's from a height on. */
  ghost predicate Stretch(f: Chain, headers: seq<BlockHeader>, from: nat) {
    forall i :: 0 <= i < |headers| ==> headers[i] == f.block(from + i)
  }

  /** Every log belongs to one of the blocks it was asked for. */
  ghost predicate LogsMatch(headers: seq<BlockHeader>, es: seq<OrderedEvent>) {
    forall e <- es :: exists h <- headers :: e.envelope.blockNumber == h.number && e.envelope.blockHash == h.hash
  }

  function LogAt(f: Chain, n: nat): BlockLog {
    BlockLog(f.block(n), f.eventsOf(f.block(n).hash))
  }

  /** The `k` blocks from a height on, with their logs. */
  function ChainLogs(f: Chain, from: nat, k: nat): (logs: seq<BlockLog>)
    ensures |logs| == k && forall i :: 0 <= i < k ==> logs[i] == LogAt(f, from + i)
  {
    seq(k, i requires 0 <= i < k => LogAt(f, from + i))
  }

  /** The projectors accept the chain's events, however far it is indexed. */
  ghost predicate ChainAccepted(f: Chain, scanStart: nat) {
    forall k: nat :: Replay(EMPTY_TABLES, AllEvents(ChainLogs(f, scanStart, k))).Success?
  }

  /** Whatever was ever scanned showed the logs its block has. */
  ghost predicate Honest(l: Ledger, f: Chain) {
    forall h <- l.archive :: l.archive[h].events == f.eventsOf(h)
  }

  /** The canonical history is the chain's, from the scan start on. */
  ghost predicate OnChain(l: Ledger, f: Chain, scanStart: nat) {
    && WellFormed(l, scanStart) && Honest(l, f)
    && History(l) == ChainLogs(f, scanStart, |l.canon|)
  }

  lemma ChainLogsAppend(f: Chain, from: nat, k: nat, m: nat)
    ensures ChainLogs(f, from, k) + ChainLogs(f, from + k, m) == ChainLogs(f, from, k + m)
  {
  }

  lemma EmptyOnChain(f: Chain, scanStart: nat)
    ensures OnChain(EMPTY_LEDGER, f, scanStart)
  {
    assert History(EMPTY_LEDGER) == [];
  }

  lemma TruncatedOnChain(l: Ledger, f: Chain, scanStart: nat, from: nat)
    requires OnChain(l, f, scanStart)
    ensures OnChain(Truncate(l, scanStart, from), f, scanStart)
  {
    TruncateIsWellFormed(l, scanStart, from);
  }

  /** The hash of the last canonical block is the chain's at its height. */
  lemma TopOnChain(l: Ledger, f: Chain, scanStart: nat, i: nat)
    requires OnChain(l, f, scanStart) && i < |l.canon|
    ensures l.canon[i] == f.block(scanStart + i).hash
  {
    assert History(l)[i] == l.archive[l.canon[i]];
  }

  lemma {:induction false} HonestContent(l: Ledger, f: Chain, logs: seq<BlockLog>)
    requires Honest(l, f) && forall log <- logs :: log.events == f.eventsOf(log.header.hash)
    decreases |logs|
    ensures SameContent(l, logs) && Honest(Extend(l, logs), f)
  {
    if logs != [] {
      assert logs[0] in logs;
      HonestContent(ExtendOne(l, logs[0]), f, logs[1..]);
    }
  }

  lemma ChainLogsHonest(f: Chain, from: nat, k: nat)
    ensures forall log <- ChainLogs(f, from, k) :: log.events == f.eventsOf(log.header.hash)
  {
  }

  /** Where the projections agree with a history on the chain, the next blocks are accepted. */
  lemma NextAccepted(db: Db, l: Ledger, f: Chain, scanStart: nat, k: nat)
    requires Agrees(db, l, scanStart) && OnChain(l, f, scanStart) && ChainAccepted(f, scanStart)
    ensures var logs := ChainLogs(f, scanStart + |l.canon|, k);
            SameContent(l, logs) && Honest(Extend(l, logs), f) && Replay(db.tables, AllEvents(logs)).Success?
  {
    hide Represents, WellFormed, SameContent, Extend;
    var n := |l.canon|;
    var logs := ChainLogs(f, scanStart + n, k);
    ChainLogsHonest(f, scanStart + n, k);
    HonestContent(l, f, logs);
    ChainLogsAppend(f, scanStart, n, k);
    AllEventsAppend(ChainLogs(f, scanStart, n), logs);
    ReplayAppend(EMPTY_TABLES, AllEvents(ChainLogs(f, scanStart, n)), AllEvents(logs));
    assert Replay(EMPTY_TABLES, AllEvents(ChainLogs(f, scanStart, n + k))).Success?;
  }

  /** After they are committed the history is still the chain's. */
  lemma ExtendedOnChain(l: Ledger, f: Chain, scanStart: nat, k: nat)
    requires OnChain(l, f, scanStart)
    requires var logs := ChainLogs(f, scanStart + |l.canon|, k);
             && WellFormed(Extend(l, logs), scanStart) && Honest(Extend(l, logs), f)
             && History(Extend(l, logs)) == History(l) + logs
    ensures OnChain(Extend(l, ChainLogs(f, scanStart + |l.canon|, k)), f, scanStart)
  {
    hide Honest, Extend;
    var logs := ChainLogs(f, scanStart + |l.canon|, k);
    ChainLogsAppend(f, scanStart, |l.canon|, k);
    assert |Extend(l, logs).canon| == |History(Extend(l, logs))|;
  }

  lemma StretchIsLinked(f: Chain, headers: seq<BlockHeader>, from: nat)
    requires Stretch(f, headers, from) && forall n: nat :: LinkedAt(f, n)
    ensures ConsecutiveHeaders(headers, from) && LinkedHeaders(headers)
    ensures headers != [] && from > 0 ==> headers[0].parentHash == f.block(from - 1).hash
  {
    forall i | 0 <= i < |headers| ensures headers[i].number == from + i {
      assert LinkedAt(f, from + i);
    }
    forall i | 0 < i < |headers| ensures headers[i].parentHash == headers[i - 1].hash {
      assert LinkedAt(f, from + i);
    }
    if headers != [] {
      assert LinkedAt(f, from);
      assert headers[0] == f.block(from + 0);
    }
  }

  lemma MatchingLogs(headers: seq<BlockHeader>, from: nat, es: seq<OrderedEvent>)
    requires ConsecutiveHeaders(headers, from) && LogsMatch(headers, es)
    ensures EventsMatchHeaders(headers, from, es) && EventsMatchHeaders(headers, from, SortEvents(es))
  {
    forall e <- es
      ensures from <= e.envelope.blockNumber < from + |headers|
      ensures headers[e.envelope.blockNumber - from].hash == e.envelope.blockHash
    {
      var h :| h in headers && e.envelope.blockNumber == h.number && e.envelope.blockHash == h.hash;
      var i :| 0 <= i < |headers| && headers[i] == h;
    }
    forall e | e in SortEvents(es) ensures e in es {
      SortKeepsMembers(es, e);
    }
  }

  /** A fetched stretch, sorted and split, is the chain's own logs. */
  lemma SplitIsChain(f: Chain, headers: seq<BlockHeader>, from: nat, es: seq<OrderedEvent>)
    requires Stretch(f, headers, from)
    requires forall h <- headers :: AtHeight(es, h.number) == f.eventsOf(h.hash)
    ensures Split(headers, es) == ChainLogs(f, from, |headers|)
  {
    forall i | 0 <= i < |headers| ensures Split(headers, es)[i] == LogAt(f, from + i) {
      assert headers[i] in headers;
    }
  }
}
