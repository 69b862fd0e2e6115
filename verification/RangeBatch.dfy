/** From fetched headers and logs to a next batch: sorting, splitting by block and linking to the checkpoint. */
module RangeBatch {
  import opened Domain
  import opened Listings
  import opened JournalDatabase
  import opened Ledger
  import opened CommitLedger

  /** Array.sort by (blockNumber, transactionIndex, logIndex), as a stable insertion sort. */
  function InsertEvent(e: OrderedEvent, es: seq<OrderedEvent>): (r: seq<OrderedEvent>)
    ensures multiset(r) == multiset(es) + multiset{e}
  {
    if es == [] || !Before(es[0].envelope, e.envelope) then [e] + es
    else
      assert es == [es[0]] + es[1..];
      [es[0]] + InsertEvent(e, es[1..])
  }

  function SortEvents(es: seq<OrderedEvent>): (r: seq<OrderedEvent>)
    ensures multiset(r) == multiset(es)
  {
    if es == [] then []
    else
      assert es == [es[0]] + es[1..];
      InsertEvent(es[0], SortEvents(es[1..]))
  }

  predicate EventBefore(a: OrderedEvent, b: OrderedEvent) {
    Before(a.envelope, b.envelope)
  }

  lemma {:induction false} InsertKeepsOrder(e: OrderedEvent, es: seq<OrderedEvent>)
    requires NotDescending(es, EventBefore)
    ensures NotDescending(InsertEvent(e, es), EventBefore)
  {
    if es != [] && Before(es[0].envelope, e.envelope) {
      InsertKeepsOrder(e, es[1..]);
      var tail := InsertEvent(e, es[1..]);
      forall x | x in tail ensures !EventBefore(x, es[0]) {
        assert x in multiset(tail);
        if x != e {
          assert x in es[1..];
          var i :| 0 <= i < |es[1..]| && es[1..][i] == x;
          assert es[i + 1] == x;
        }
      }
    } else if es != [] {
      forall i | 0 <= i < |es| ensures !EventBefore(es[i], e) {
        assert i > 0 ==> !EventBefore(es[i], es[0]);
      }
    }
  }

  lemma {:induction false} SortIsOrdered(es: seq<OrderedEvent>)
    ensures NotDescending(SortEvents(es), EventBefore)
  {
    if es != [] {
      SortIsOrdered(es[1..]);
      InsertKeepsOrder(es[0], SortEvents(es[1..]));
    }
  }

  lemma SortKeepsMembers(es: seq<OrderedEvent>, e: OrderedEvent)
    ensures e in SortEvents(es) <==> e in es
  {
    assert e in multiset(SortEvents(es)) <==> e in multiset(es);
  }

  /** No two elements share a key, told by multiplicities so that reordering keeps it. */
  ghost predicate KeysOnce(m: multiset<OrderedEvent>) {
    && (forall e <- m :: m[e] == 1)
    && (forall e <- m, f <- m :: KeyOf(e) == KeyOf(f) ==> e == f)
  }

  lemma {:induction false} DistinctMeansOnce(es: seq<OrderedEvent>)
    requires DistinctKeys(es)
    ensures KeysOnce(multiset(es))
  {
    if es != [] {
      assert es == [es[0]] + es[1..];
      DistinctMeansOnce(es[1..]);
      forall e | e in es[1..] ensures KeyOf(e) != KeyOf(es[0]) {
        var i :| 0 <= i < |es[1..]| && es[1..][i] == e;
        assert es[i + 1] == e;
      }
      assert es[0] !in multiset(es[1..]);
    }
  }

  lemma {:induction false} OnceMeansDistinct(es: seq<OrderedEvent>)
    requires KeysOnce(multiset(es))
    ensures DistinctKeys(es)
  {
    if es != [] {
      assert es == [es[0]] + es[1..];
      var m := multiset(es);
      forall e | e in multiset(es[1..]) ensures e != es[0] && m[e] == 1 && multiset(es[1..])[e] == 1 {
        assert m[e] == multiset(es[1..])[e] + (if e == es[0] then 1 else 0);
      }
      OnceMeansDistinct(es[1..]);
      forall i | 0 < i < |es| ensures KeyOf(es[0]) != KeyOf(es[i]) {
        assert es[1..][i - 1] == es[i] && es[i] in multiset(es[1..]);
      }
      forall i, j | 0 <= i < j < |es| ensures KeyOf(es[i]) != KeyOf(es[j]) {
        if i > 0 {
          assert KeyOf(es[1..][i - 1]) != KeyOf(es[1..][j - 1]);
        }
      }
    }
  }

  lemma SortKeepsDistinctKeys(es: seq<OrderedEvent>)
    requires DistinctKeys(es)
    ensures DistinctKeys(SortEvents(es))
  {
    DistinctMeansOnce(es);
    OnceMeansDistinct(SortEvents(es));
  }

  // ---- splitting a sorted range by block ----

  function Split(headers: seq<BlockHeader>, es: seq<OrderedEvent>): (logs: seq<BlockLog>)
    ensures |logs| == |headers|
    ensures forall i :: 0 <= i < |headers| ==> logs[i] == BlockLog(headers[i], AtHeight(es, headers[i].number))
  {
    seq(|headers|, i requires 0 <= i < |headers| => BlockLog(headers[i], AtHeight(es, headers[i].number)))
  }

  ghost predicate ConsecutiveHeaders(headers: seq<BlockHeader>, from: nat) {
    forall i :: 0 <= i < |headers| ==> headers[i].number == from + i
  }

  ghost predicate WithinHeights(es: seq<OrderedEvent>, lo: nat, hi: nat) {
    forall e <- es :: lo <= e.envelope.blockNumber < hi
  }

  /** How many leading events are at height `n`. */
  function Leading(es: seq<OrderedEvent>, n: nat): (c: nat)
    ensures c <= |es|
  {
    if es == [] || es[0].envelope.blockNumber != n then 0 else 1 + Leading(es[1..], n)
  }

  lemma NoneLeading(es: seq<OrderedEvent>, n: nat, hi: nat)
    requires NotDescending(es, EventBefore) && WithinHeights(es, n, hi) && es != [] && es[0].envelope.blockNumber != n
    ensures WithinHeights(es, n + 1, hi)
  {
    assert es[0] in es;
    forall e | e in es ensures n + 1 <= e.envelope.blockNumber {
      var i :| 0 <= i < |es| && es[i] == e;
      assert i > 0 ==> !EventBefore(es[i], es[0]);
    }
  }

  lemma {:induction false} LeadingSplits(es: seq<OrderedEvent>, n: nat, hi: nat)
    requires NotDescending(es, EventBefore) && WithinHeights(es, n, hi)
    ensures forall e <- es[..Leading(es, n)] :: e.envelope.blockNumber == n
    ensures WithinHeights(es[Leading(es, n)..], n + 1, hi)
  {
    if es == [] {
    } else if es[0].envelope.blockNumber != n {
      NoneLeading(es, n, hi);
    } else {
      assert forall e <- es[1..] :: e in es;
      LeadingSplits(es[1..], n, hi);
      var c := Leading(es[1..], n);
      assert es[..c + 1] == [es[0]] + es[1..][..c];
      assert es[c + 1..] == es[1..][c..];
    }
  }

  lemma NothingInEmptyRange(es: seq<OrderedEvent>, n: nat)
    requires WithinHeights(es, n, n)
    ensures es == []
  {
    SameMembersBothEmpty(es, []);
  }

  lemma SplitRest(headers: seq<BlockHeader>, from: nat, here: seq<OrderedEvent>, later: seq<OrderedEvent>)
    requires headers != [] && ConsecutiveHeaders(headers, from) && forall e <- here :: e.envelope.blockNumber == from
    ensures Split(headers, here + later)[1..] == Split(headers[1..], later)
  {
    forall i | 0 <= i < |headers[1..]| ensures Split(headers, here + later)[1..][i] == Split(headers[1..], later)[i] {
      AtHeightAppend(here, later, headers[i + 1].number);
      NoEventsElsewhere(here, headers[i + 1].number);
    }
  }

  /** Splitting a sorted range by block loses nothing. */
  lemma {:induction false} SplitFlattens(headers: seq<BlockHeader>, from: nat, es: seq<OrderedEvent>)
    requires ConsecutiveHeaders(headers, from)
    requires NotDescending(es, EventBefore) && WithinHeights(es, from, from + |headers|)
    decreases |headers|
    ensures AllEvents(Split(headers, es)) == es
  {
    hide AtHeight, EventBefore;
    if headers == [] {
      NothingInEmptyRange(es, from);
    } else {
      var c := Leading(es, from);
      var here, later := es[..c], es[c..];
      LeadingSplits(es, from, from + |headers|);
      assert es == here + later;
      AtHeightAppend(here, later, from);
      AllAtHeight(here, from);
      NoEventsElsewhere(later, from);
      SplitFlattens(headers[1..], from + 1, later);
      SplitRest(headers, from, here, later);
    }
  }

  /** Events of one height stand in log order with distinct log indices. */
  ghost predicate StrictByHeight(es: seq<OrderedEvent>) {
    forall i, j :: 0 <= i < j < |es| && es[i].envelope.blockNumber == es[j].envelope.blockNumber ==>
      LogBefore(es[i].envelope, es[j].envelope) && es[i].envelope.logIndex != es[j].envelope.logIndex
  }

  lemma SortedIsStrictByHeight(es: seq<OrderedEvent>)
    requires NotDescending(es, EventBefore) && DistinctKeys(es)
    requires forall e <- es, f <- es ::
               e.envelope.blockNumber == f.envelope.blockNumber ==> e.envelope.blockHash == f.envelope.blockHash
    ensures StrictByHeight(es)
  {
    forall i, j | 0 <= i < j < |es| && es[i].envelope.blockNumber == es[j].envelope.blockNumber
      ensures LogBefore(es[i].envelope, es[j].envelope) && es[i].envelope.logIndex != es[j].envelope.logIndex
    {
      assert es[i] in es && es[j] in es && KeyOf(es[i]) != KeyOf(es[j]) && !EventBefore(es[j], es[i]);
    }
  }

  lemma {:induction false} AtHeightStrict(es: seq<OrderedEvent>, n: nat)
    requires StrictByHeight(es)
    ensures StrictByHeight(AtHeight(es, n))
    ensures forall e <- AtHeight(es, n) :: e in es && e.envelope.blockNumber == n
  {
    if es != [] {
      var rest := es[1..];
      assert es == [es[0]] + rest;
      AtHeightStrict(rest, n);
      forall e | e in AtHeight(rest, n) && es[0].envelope.blockNumber == n
        ensures LogBefore(es[0].envelope, e.envelope) && es[0].envelope.logIndex != e.envelope.logIndex
      {
        var i :| 0 <= i < |rest| && rest[i] == e;
        assert es[i + 1] == e;
      }
    }
  }

  // ---- the checks of ingestRange ----

  /** Every event names the block of its height. */
  ghost predicate EventsMatchHeaders(headers: seq<BlockHeader>, from: nat, es: seq<OrderedEvent>) {
    forall e <- es ::
      && from <= e.envelope.blockNumber < from + |headers|
      && headers[e.envelope.blockNumber - from].hash == e.envelope.blockHash
  }

  ghost predicate LinkedHeaders(headers: seq<BlockHeader>) {
    forall i :: 0 < i < |headers| ==> headers[i].parentHash == headers[i - 1].hash
  }

  lemma SplitIsWellFormed(headers: seq<BlockHeader>, from: nat, es: seq<OrderedEvent>, i: nat)
    requires ConsecutiveHeaders(headers, from) && EventsMatchHeaders(headers, from, es) && i < |headers|
    requires NotDescending(es, EventBefore) && DistinctKeys(es)
    ensures WellFormedLog(Split(headers, es)[i])
  {
    SortedIsStrictByHeight(es);
    AtHeightStrict(es, headers[i].number);
    var log := Split(headers, es)[i];
    forall k | 0 <= k < |log.events|
      ensures log.events[k].envelope.blockHash == log.header.hash && log.events[k].envelope.blockNumber == log.header.number
    {
      assert log.events[k] in log.events;
    }
  }

  ghost predicate HeadersKnown(l: Ledger, headerOf: Hash -> BlockHeader) {
    forall h <- l.archive :: headerOf(h) == l.archive[h].header
  }

  /** Well-formed, consecutive, linked logs whose hashes stand for one header each form a next batch. */
  lemma {:induction false} LinkedLogsAreNextBatch(l: Ledger, scanStart: nat, logs: seq<BlockLog>, headerOf: Hash -> BlockHeader)
    requires HeadersKnown(l, headerOf)
    requires forall i :: 0 <= i < |logs| ==> WellFormedLog(logs[i]) && headerOf(logs[i].header.hash) == logs[i].header
    requires forall i :: 0 <= i < |logs| ==> logs[i].header.number == scanStart + |l.canon| + i
    requires forall i :: 0 < i < |logs| ==> logs[i].header.parentHash == logs[i - 1].header.hash
    requires logs != [] && l.canon != [] ==> logs[0].header.parentHash == l.canon[|l.canon| - 1]
    decreases |logs|
    ensures NextBatch(l, scanStart, logs)
    ensures HeadersKnown(Extend(l, logs), headerOf)
  {
    if logs != [] {
      assert forall i :: 0 <= i < |logs[1..]| ==> logs[1..][i] == logs[i + 1];
      LinkedLogsAreNextBatch(ExtendOne(l, logs[0]), scanStart, logs[1..], headerOf);
    }
  }

  /** A range that passed every check is a next batch, committed as it was fetched. */
  lemma CheckedRangeIsNextBatch(l: Ledger, scanStart: nat, headers: seq<BlockHeader>, es: seq<OrderedEvent>,
                                headerOf: Hash -> BlockHeader)
    requires WellFormed(l, scanStart) && HeadersKnown(l, headerOf)
    requires ConsecutiveHeaders(headers, scanStart + |l.canon|) && LinkedHeaders(headers)
    requires headers != [] && l.canon != [] ==> headers[0].parentHash == l.canon[|l.canon| - 1]
    requires forall i :: 0 <= i < |headers| ==> headerOf(headers[i].hash) == headers[i]
    requires EventsMatchHeaders(headers, scanStart + |l.canon|, es)
    requires NotDescending(es, EventBefore) && DistinctKeys(es)
    ensures var logs := Split(headers, es);
            && NextBatch(l, scanStart, logs) && HeadersKnown(Extend(l, logs), headerOf)
            && Headers(logs) == headers && AllEvents(logs) == es
  {
    hide WellFormed, HeadersKnown, AllEvents, NextBatch, Extend, DistinctKeys, NotDescending, AtHeight;
    var logs := Split(headers, es);
    forall i | 0 <= i < |logs| ensures WellFormedLog(logs[i]) {
      SplitIsWellFormed(headers, scanStart + |l.canon|, es, i);
    }
    LinkedLogsAreNextBatch(l, scanStart, logs, headerOf);
    SplitFlattens(headers, scanStart + |l.canon|, es);
  }
}
