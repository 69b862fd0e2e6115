/** commit appends a batch to the ledger: new blocks are archived, orphaned ones become canonical again. */
module CommitLedger {
  import opened Wrappers
  import opened Domain
  import opened ProjectionTables
  import opened JournalDatabase
  import opened Ledger

  /** `log` may follow the checkpoint: next height, linked by parent hash, its hash standing for one header. */
  ghost predicate Follows(l: Ledger, scanStart: nat, log: BlockLog) {
    && WellFormedLog(log)
    && log.header.number == scanStart + |l.canon|
    && (l.canon != [] ==> log.header.parentHash == l.canon[|l.canon| - 1])
    && (log.header.hash in l.archive ==> l.archive[log.header.hash].header == log.header)
  }

  function ExtendOne(l: Ledger, log: BlockLog): Ledger {
    var h := log.header.hash;
    Ledger(if h in l.archive then l.archive else l.archive[h := log], l.canon + [h])
  }

  ghost predicate NextBatch(l: Ledger, scanStart: nat, logs: seq<BlockLog>)
    decreases |logs|
  {
    logs == [] || (Follows(l, scanStart, logs[0]) && NextBatch(ExtendOne(l, logs[0]), scanStart, logs[1..]))
  }

  function Extend(l: Ledger, logs: seq<BlockLog>): Ledger
    decreases |logs|
  {
    if logs == [] then l else Extend(ExtendOne(l, logs[0]), logs[1..])
  }

  /** Every block of the batch that was scanned before shows the logs it showed then. */
  predicate SameContent(l: Ledger, logs: seq<BlockLog>)
    decreases |logs|
  {
    logs == [] ||
    (var log := logs[0];
     && (log.header.hash in l.archive ==> l.archive[log.header.hash].events == log.events)
     && SameContent(ExtendOne(l, log), logs[1..]))
  }

  predicate SameEnvelopes(l: Ledger, logs: seq<BlockLog>)
    decreases |logs|
  {
    logs == [] ||
    (var log := logs[0];
     && (log.header.hash in l.archive ==> Envelopes(l.archive[log.header.hash].events) == Envelopes(log.events))
     && SameEnvelopes(ExtendOne(l, log), logs[1..]))
  }

  /** The blocks of the batch that were scanned before. */
  function Again(l: Ledger, logs: seq<BlockLog>): set<Hash>
    decreases |logs|
  {
    if logs == [] then {}
    else
      (if logs[0].header.hash in l.archive then {logs[0].header.hash} else {}) + Again(ExtendOne(l, logs[0]), logs[1..])
  }

  // ---- the batch as a sequence ----

  function EndOf(logs: seq<BlockLog>): Checkpoint
    requires logs != []
  {
    Checkpoint(logs[|logs| - 1].header.number, logs[|logs| - 1].header.hash)
  }

  lemma FollowsIsNew(l: Ledger, scanStart: nat, log: BlockLog)
    requires WellFormed(l, scanStart) && Follows(l, scanStart, log)
    ensures log.header.hash !in l.canon
    ensures WellFormed(ExtendOne(l, log), scanStart)
  {
    assert forall i :: 0 <= i < |l.canon| ==> l.archive[l.canon[i]].header.number == scanStart + i;
    assert forall i :: 0 <= i < |l.canon| ==> l.canon[i] != log.header.hash;
  }

  lemma {:induction false} ExtendIsWellFormed(l: Ledger, scanStart: nat, logs: seq<BlockLog>)
    requires WellFormed(l, scanStart) && NextBatch(l, scanStart, logs)
    decreases |logs|
    ensures WellFormed(Extend(l, logs), scanStart)
    ensures |Extend(l, logs).canon| == |l.canon| + |logs|
    ensures l.canon <= Extend(l, logs).canon
    ensures logs != [] ==> CheckpointOf(Extend(l, logs), scanStart) == Some(EndOf(logs))
  {
    if logs != [] {
      FollowsIsNew(l, scanStart, logs[0]);
      ExtendIsWellFormed(ExtendOne(l, logs[0]), scanStart, logs[1..]);
    }
  }

  lemma {:induction false} BatchIsConsecutive(l: Ledger, scanStart: nat, logs: seq<BlockLog>)
    requires NextBatch(l, scanStart, logs)
    decreases |logs|
    ensures Consecutive(logs)
    ensures logs != [] ==> logs[0].header.number == scanStart + |l.canon|
  {
    if logs != [] {
      BatchIsConsecutive(ExtendOne(l, logs[0]), scanStart, logs[1..]);
      forall i | 0 < i < |logs| ensures WellFormedLog(logs[i]) && logs[i].header.number == logs[0].header.number + i {
        assert logs[i] == logs[1..][i - 1];
      }
    }
  }

  lemma CanonIsArchived(l: Ledger, scanStart: nat)
    requires WellFormed(l, scanStart)
    ensures forall h <- l.canon :: h in l.archive
  {
  }

  lemma AppendsOne(l: Ledger, scanStart: nat, log: BlockLog)
    requires WellFormed(l, scanStart) && Follows(l, scanStart, log)
    requires log.header.hash in l.archive ==> l.archive[log.header.hash].events == log.events
    ensures WellFormed(ExtendOne(l, log), scanStart)
    ensures History(ExtendOne(l, log)) == History(l) + [log]
  {
    FollowsIsNew(l, scanStart, log);
    hide WellFormedLog;
    assert ExtendOne(l, log).archive[log.header.hash] == log;
  }

  /** With unchanged content, extending the ledger appends the batch to the history. */
  lemma {:induction false} ExtendAppendsHistory(l: Ledger, scanStart: nat, logs: seq<BlockLog>)
    requires WellFormed(l, scanStart) && NextBatch(l, scanStart, logs) && SameContent(l, logs)
    decreases |logs|
    ensures WellFormed(Extend(l, logs), scanStart)
    ensures History(Extend(l, logs)) == History(l) + logs
  {
    hide WellFormed, Follows, ExtendOne;
    ExtendIsWellFormed(l, scanStart, logs);
    CanonIsArchived(l, scanStart);
    CanonIsArchived(Extend(l, logs), scanStart);
    if logs != [] {
      AppendsOne(l, scanStart, logs[0]);
      CanonIsArchived(ExtendOne(l, logs[0]), scanStart);
      ExtendAppendsHistory(ExtendOne(l, logs[0]), scanStart, logs[1..]);
      assert History(l) + logs == History(l) + [logs[0]] + logs[1..];
    } else {
      assert History(l) + logs == History(l);
    }
  }

  // ---- the header stage ----

  /** No canonical block stands at the height a block may follow at. */
  lemma HeightIsFree(blocks: map<Hash, BlockRow>, l: Ledger, scanStart: nat, log: BlockLog, scope: string)
    requires WellFormed(l, scanStart) && Follows(l, scanStart, log) && BlocksRepresent(blocks, l, scope)
    ensures !HeightTaken(blocks, log.header.number, log.header.hash)
  {
    hide WellFormedLog;
    forall g | g in blocks && blocks[g].canonical ensures blocks[g].number < log.header.number {
      var i :| 0 <= i < |l.canon| && l.canon[i] == g;
      assert l.archive[l.canon[i]].header.number == scanStart + i;
    }
  }

  lemma StoreOneHeader(blocks: map<Hash, BlockRow>, l: Ledger, scanStart: nat, log: BlockLog, scope: string)
    requires WellFormed(l, scanStart) && Follows(l, scanStart, log) && BlocksRepresent(blocks, l, scope)
    ensures var r := StoreHeader(blocks, log.header, Envelopes(log.events), scope);
            && (r.Success? <==>
                  (log.header.hash in l.archive ==> Envelopes(l.archive[log.header.hash].events) == Envelopes(log.events)))
            && (r.Success? ==> BlocksRepresent(r.value, ExtendOne(l, log), scope))
            && (Recanonicalizes(blocks, log.header) <==> log.header.hash in l.archive)
  {
    FollowsIsNew(l, scanStart, log);
    HeightIsFree(blocks, l, scanStart, log, scope);
    hide WellFormed, WellFormedLog, HeightTaken, Envelopes, BlocksRepresent, ExtendOne;
    var r := StoreHeader(blocks, log.header, Envelopes(log.events), scope);
    RepresentedRow(blocks, l, log.header.hash, scope);
    if r.Success? {
      OneMoreRow(blocks, l, log, scope, r.value);
    }
  }

  lemma RepresentedRow(blocks: map<Hash, BlockRow>, l: Ledger, h: Hash, scope: string)
    requires BlocksRepresent(blocks, l, scope)
    ensures blocks.Keys == l.archive.Keys
    ensures h in l.archive ==> blocks[h] == BlockRowOf(l.archive[h], h in l.canon, scope)
  {
  }

  lemma OneMoreRow(blocks: map<Hash, BlockRow>, l: Ledger, log: BlockLog, scope: string, after: map<Hash, BlockRow>)
    requires BlocksRepresent(blocks, l, scope)
    requires var h := log.header.hash;
             after == blocks[h := BlockRowOf(if h in l.archive then l.archive[h] else log, true, scope)]
    ensures BlocksRepresent(after, ExtendOne(l, log), scope)
  {
    hide BlockRowOf;
    assert forall h :: h in ExtendOne(l, log).canon <==> h in l.canon || h == log.header.hash;
  }

  function AgainAfter(s: StoredHeaders, header: BlockHeader): set<Hash> {
    if Recanonicalizes(s.blocks, header) then s.recanonicalized + {header.hash} else s.recanonicalized
  }

  lemma StoreHeadersStep(s: StoredHeaders, logs: seq<BlockLog>, events: seq<OrderedEvent>, scope: string)
    requires logs != [] && ObservedLogs(events, logs[0].header.number) == Envelopes(logs[0].events)
    ensures var first := StoreHeader(s.blocks, logs[0].header, Envelopes(logs[0].events), scope);
            StoreHeaders(s, Headers(logs), events, scope) ==
            if first.Failure? then Failure(first.error)
            else StoreHeaders(StoredHeaders(first.value, AgainAfter(s, logs[0].header)), Headers(logs[1..]), events, scope)
  {
    assert Headers(logs)[0] == logs[0].header && Headers(logs)[1..] == Headers(logs[1..]);
  }

  lemma {:induction false} StoreBatchHeaders(s: StoredHeaders, l: Ledger, scanStart: nat, logs: seq<BlockLog>,
                                             events: seq<OrderedEvent>, scope: string)
    requires WellFormed(l, scanStart) && BlocksRepresent(s.blocks, l, scope) && NextBatch(l, scanStart, logs)
    requires forall log <- logs :: ObservedLogs(events, log.header.number) == Envelopes(log.events)
    decreases |logs|
    ensures var r := StoreHeaders(s, Headers(logs), events, scope);
            && (r.Success? <==> SameEnvelopes(l, logs))
            && (r.Success? ==> BlocksRepresent(r.value.blocks, Extend(l, logs), scope))
            && (r.Success? ==> r.value.recanonicalized == s.recanonicalized + Again(l, logs))
  {
    if logs != [] {
      var log := logs[0];
      assert log in logs;
      StoreHeadersStep(s, logs, events, scope);
      StoreOneHeader(s.blocks, l, scanStart, log, scope);
      var first := StoreHeader(s.blocks, log.header, Envelopes(log.events), scope);
      if first.Success? {
        FollowsIsNew(l, scanStart, log);
        StoreBatchHeaders(StoredHeaders(first.value, AgainAfter(s, log.header)), ExtendOne(l, log), scanStart,
                          logs[1..], events, scope);
      }
    }
  }

  // ---- the event stage, block by block ----

  lemma {:induction false} RecordEventsAppend(j: Journal, a: seq<OrderedEvent>, b: seq<OrderedEvent>, again: set<Hash>)
    decreases |a|
    ensures RecordEvents(j, a + b, again) ==
              if RecordEvents(j, a, again).Success? then RecordEvents(RecordEvents(j, a, again).value, b, again)
              else RecordEvents(j, a, again)
  {
    if a == [] {
      assert a + b == b;
    } else {
      assert (a + b)[0] == a[0] && (a + b)[1..] == a[1..] + b;
      var step := RecordEvent(j, a[0], a[0].envelope.blockHash in again);
      if step.Success? {
        RecordEventsAppend(step.value, a[1..], b, again);
      }
    }
  }

  /** A recanonicalised block replays its stored events, which must decode as they did before. */
  lemma {:induction false} RecordStored(j: Journal, stored: seq<OrderedEvent>, es: seq<OrderedEvent>, again: set<Hash>)
    requires Envelopes(stored) == Envelopes(es)
    requires forall e <- es :: e.envelope.blockHash in again
    requires forall e <- stored :: KeyOf(e) in j.events && j.events[KeyOf(e)] == RowOf(e)
    decreases |es|
    ensures var r := RecordEvents(j, es, again);
            && (r.Success? <==> stored == es && Replay(j.tables, es).Success?)
            && (r.Success? ==> r.value == Journal(j.events, Replay(j.tables, es).value))
  {
    hide ProjectionTables.ApplyEvent;
    assert |stored| == |Envelopes(stored)| == |es|;
    if es != [] {
      var e := es[0];
      assert Envelopes(stored)[0] == Envelopes(es)[0];
      assert stored[0] in stored && KeyOf(stored[0]) == KeyOf(e);
      assert Envelopes(stored[1..]) == Envelopes(stored)[1..] == Envelopes(es)[1..] == Envelopes(es[1..]);
      assert stored == [stored[0]] + stored[1..] && es == [e] + es[1..];
      var step := RecordEvent(j, e, true);
      if step.Success? {
        RecordStored(step.value, stored[1..], es[1..], again);
      }
    }
  }

  function AddRows(events: map<EventKey, EventRow>, es: seq<OrderedEvent>): map<EventKey, EventRow>
    decreases |es|
  {
    if es == [] then events else AddRows(events[KeyOf(es[0]) := RowOf(es[0])], es[1..])
  }

  ghost predicate DistinctKeys(es: seq<OrderedEvent>) {
    forall i, j :: 0 <= i < j < |es| ==> KeyOf(es[i]) != KeyOf(es[j])
  }

  lemma {:induction false} RecordNew(j: Journal, es: seq<OrderedEvent>, again: set<Hash>)
    requires forall e <- es :: KeyOf(e) !in j.events
    requires DistinctKeys(es)
    decreases |es|
    ensures var r := RecordEvents(j, es, again);
            && (r.Success? <==> Replay(j.tables, es).Success?)
            && (r.Success? ==> r.value == Journal(AddRows(j.events, es), Replay(j.tables, es).value))
  {
    if es != [] {
      var step := RecordEvent(j, es[0], es[0].envelope.blockHash in again);
      assert es[0] in es;
      if step.Success? {
        assert step.value.events == j.events[KeyOf(es[0]) := RowOf(es[0])];
        forall e <- es[1..] ensures KeyOf(e) !in step.value.events {
          var i :| 0 <= i < |es[1..]| && es[1..][i] == e;
          assert es[i + 1] == e;
        }
        RecordNew(step.value, es[1..], again);
      }
    }
  }

  lemma {:induction false} AddedRows(events: map<EventKey, EventRow>, es: seq<OrderedEvent>, k: EventKey)
    requires DistinctKeys(es) && forall e <- es :: KeyOf(e) !in events
    decreases |es|
    ensures k in AddRows(events, es) <==> k in events || exists e <- es :: KeyOf(e) == k
    ensures k in events ==> AddRows(events, es)[k] == events[k]
    ensures forall e <- es :: KeyOf(e) == k ==> AddRows(events, es)[k] == RowOf(e)
  {
    if es != [] {
      var first, rest := es[0], es[1..];
      assert es == [first] + rest;
      assert first in es;
      forall e <- rest ensures KeyOf(e) != KeyOf(first) {
        var i :| 0 <= i < |rest| && rest[i] == e;
        assert es[i + 1] == e;
      }
      AddedRows(events[KeyOf(first) := RowOf(first)], rest, k);
    }
  }

  lemma LogKeysDistinct(log: BlockLog)
    requires WellFormedLog(log)
    ensures DistinctKeys(log.events)
  {
  }

  lemma NewBlockKeys(events: map<EventKey, EventRow>, archive: map<Hash, BlockLog>, log: BlockLog)
    requires EventsRepresent(events, archive) && WellFormedLog(log) && log.header.hash !in archive
    ensures forall e <- log.events :: KeyOf(e) !in events
  {
    forall e <- log.events ensures KeyOf(e) !in events {
      assert KeyOf(e) in events ==> ArchivedKey(archive, KeyOf(e));
    }
  }

  lemma NewBlockArchived(events: map<EventKey, EventRow>, archive: map<Hash, BlockLog>, log: BlockLog, k: EventKey)
    requires EventsRepresent(events, archive) && WellFormedLog(log) && log.header.hash !in archive
    requires k in AddRows(events, log.events)
    ensures ArchivedKey(archive[log.header.hash := log], k)
  {
    LogKeysDistinct(log);
    NewBlockKeys(events, archive, log);
    AddedRows(events, log.events, k);
    if k in events {
      assert ArchivedKey(archive, k);
    } else {
      var e :| e in log.events && KeyOf(e) == k;
      var i :| 0 <= i < |log.events| && log.events[i] == e;
      assert KeyOf(archive[log.header.hash := log][k.blockHash].events[i]) == k;
    }
  }

  lemma NewBlockRows(events: map<EventKey, EventRow>, archive: map<Hash, BlockLog>, log: BlockLog)
    requires EventsRepresent(events, archive) && WellFormedLog(log) && log.header.hash !in archive
    ensures EventsRepresent(AddRows(events, log.events), archive[log.header.hash := log])
  {
    LogKeysDistinct(log);
    NewBlockKeys(events, archive, log);
    var after, archive' := AddRows(events, log.events), archive[log.header.hash := log];
    forall k <- after ensures ArchivedKey(archive', k) {
      NewBlockArchived(events, archive, log, k);
    }
    forall g <- archive', e <- archive'[g].events ensures KeyOf(e) in after && after[KeyOf(e)] == RowOf(e) {
      AddedRows(events, log.events, KeyOf(e));
    }
  }

  lemma RecordBlock(j: Journal, l: Ledger, scanStart: nat, log: BlockLog, again: set<Hash>)
    requires WellFormed(l, scanStart) && Follows(l, scanStart, log) && EventsRepresent(j.events, l.archive)
    requires log.header.hash in l.archive ==> Envelopes(l.archive[log.header.hash].events) == Envelopes(log.events)
    requires log.header.hash in again <==> log.header.hash in l.archive
    ensures var r := RecordEvents(j, log.events, again);
            && (r.Success? <==> SameContent(l, [log]) && Replay(j.tables, log.events).Success?)
            && (r.Success? ==> r.value.tables == Replay(j.tables, log.events).value)
            && (r.Success? ==> EventsRepresent(r.value.events, ExtendOne(l, log).archive))
  {
    var h := log.header.hash;
    assert SameContent(l, [log]) <==> (h in l.archive ==> l.archive[h].events == log.events);
    if h in l.archive {
      RecordStored(j, l.archive[h].events, log.events, again);
    } else {
      NewBlockRows(j.events, l.archive, log);
      NewBlockKeys(j.events, l.archive, log);
      LogKeysDistinct(log);
      RecordNew(j, log.events, again);
    }
  }

  // ---- the whole transaction ----

  ghost predicate AgainMatches(l: Ledger, logs: seq<BlockLog>, again: set<Hash>)
    decreases |logs|
  {
    logs == [] ||
    (&& (logs[0].header.hash in again <==> logs[0].header.hash in l.archive)
     && AgainMatches(ExtendOne(l, logs[0]), logs[1..], again))
  }

  lemma {:induction false} AgainOmitsCanon(l: Ledger, scanStart: nat, logs: seq<BlockLog>, h: Hash)
    requires WellFormed(l, scanStart) && NextBatch(l, scanStart, logs) && h in l.canon
    decreases |logs|
    ensures h !in Again(l, logs)
  {
    if logs != [] {
      FollowsIsNew(l, scanStart, logs[0]);
      AgainOmitsCanon(ExtendOne(l, logs[0]), scanStart, logs[1..], h);
    }
  }

  lemma {:induction false} AgainIsExact(l: Ledger, scanStart: nat, logs: seq<BlockLog>, done: set<Hash>)
    requires WellFormed(l, scanStart) && NextBatch(l, scanStart, logs)
    requires forall h <- done :: h in l.canon
    decreases |logs|
    ensures AgainMatches(l, logs, done + Again(l, logs))
  {
    if logs != [] {
      var h, next := logs[0].header.hash, ExtendOne(l, logs[0]);
      FollowsIsNew(l, scanStart, logs[0]);
      AgainOmitsCanon(next, scanStart, logs[1..], h);
      var done' := done + if h in l.archive then {h} else {};
      AgainIsExact(next, scanStart, logs[1..], done');
      assert done + Again(l, logs) == done' + Again(next, logs[1..]);
    }
  }

  lemma {:induction false} RecordBatch(j: Journal, l: Ledger, scanStart: nat, logs: seq<BlockLog>, again: set<Hash>)
    requires WellFormed(l, scanStart) && NextBatch(l, scanStart, logs) && EventsRepresent(j.events, l.archive)
    requires SameEnvelopes(l, logs) && AgainMatches(l, logs, again)
    decreases |logs|
    ensures var r := RecordEvents(j, AllEvents(logs), again);
            && (r.Success? <==> SameContent(l, logs) && Replay(j.tables, AllEvents(logs)).Success?)
            && (r.Success? ==> r.value.tables == Replay(j.tables, AllEvents(logs)).value)
            && (r.Success? ==> EventsRepresent(r.value.events, Extend(l, logs).archive))
  {
    if logs != [] {
      var log, rest := logs[0], logs[1..];
      RecordEventsAppend(j, log.events, AllEvents(rest), again);
      ReplayAppend(j.tables, log.events, AllEvents(rest));
      RecordBlock(j, l, scanStart, log, again);
      FollowsIsNew(l, scanStart, log);
      var here := RecordEvents(j, log.events, again);
      if here.Success? {
        RecordBatch(here.value, ExtendOne(l, log), scanStart, rest, again);
      }
    }
  }

  lemma {:induction false} SameContentSameEnvelopes(l: Ledger, logs: seq<BlockLog>)
    requires SameContent(l, logs)
    decreases |logs|
    ensures SameEnvelopes(l, logs)
  {
    if logs != [] {
      SameContentSameEnvelopes(ExtendOne(l, logs[0]), logs[1..]);
    }
  }

  /** commit on the batch made of `logs`. */
  function CommitBatch(db: Db, allowReindexRecovery: bool, logs: seq<BlockLog>): Result<Db, StoreError>
    requires logs != []
  {
    CommitTransaction(db, allowReindexRecovery, db.logScope, Headers(logs), AllEvents(logs), logs[|logs| - 1].header)
  }

  lemma BatchIsObserved(l: Ledger, scanStart: nat, logs: seq<BlockLog>)
    requires WellFormed(l, scanStart) && NextBatch(l, scanStart, logs)
    ensures forall log <- logs :: ObservedLogs(AllEvents(logs), log.header.number) == Envelopes(log.events)
  {
    hide WellFormed, NextBatch, ObservedLogs, AllEvents;
    BatchIsConsecutive(l, scanStart, logs);
    forall log <- logs ensures ObservedLogs(AllEvents(logs), log.header.number) == Envelopes(log.events) {
      var k :| 0 <= k < |logs| && logs[k] == log;
      ObservedLogsOfBatch(logs, k);
    }
  }

  /** A commit succeeds exactly when no barrier stands in its way, blocks scanned before show their old
      content and the projectors accept the events; it then extends the ledger by the batch. */
  lemma CommitExtendsLedger(db: Db, l: Ledger, scanStart: nat, logs: seq<BlockLog>, allowReindexRecovery: bool)
    requires Represents(db, l, scanStart) && NextBatch(l, scanStart, logs) && logs != []
    ensures var r := CommitBatch(db, allowReindexRecovery, logs);
            && (r.Success? <==>
                  && (db.status.RecoveryRequired? ==> allowReindexRecovery)
                  && SameContent(l, logs)
                  && Replay(db.tables, AllEvents(logs)).Success?)
            && (r.Success? ==>
                  && Represents(r.value, Extend(l, logs), scanStart)
                  && History(Extend(l, logs)) == History(l) + logs
                  && Replay(db.tables, AllEvents(logs)) == Success(r.value.tables)
                  && r.value.status == db.status && r.value.reason == db.reason)
  {
    hide WellFormed, BlocksRepresent, EventsRepresent, SameContent, SameEnvelopes, AgainMatches, Again, Extend, Replay, AllEvents,
         History, ObservedLogs, NextBatch;
    var events, start := AllEvents(logs), StoredHeaders(db.blocks, {});
    BatchIsObserved(l, scanStart, logs);
    StoreBatchHeaders(start, l, scanStart, logs, events, db.logScope);
    var stored := StoreHeaders(start, Headers(logs), events, db.logScope);
    if stored.Success? {
      AgainIsExact(l, scanStart, logs, {});
      assert stored.value.recanonicalized == {} + Again(l, logs);
      RecordBatch(Journal(db.events, db.tables), l, scanStart, logs, stored.value.recanonicalized);
      ExtendIsWellFormed(l, scanStart, logs);
      if SameContent(l, logs) {
        ExtendAppendsHistory(l, scanStart, logs);
      }
    } else if SameContent(l, logs) {
      SameContentSameEnvelopes(l, logs);
    }
  }

  predicate SameContract(a: Db, b: Db) {
    b.projectorVersion == a.projectorVersion && b.buildId == a.buildId && b.logScope == a.logScope && b.status == a.status
  }

  lemma CommitKeepsContract(db: Db, allow: bool, logs: seq<BlockLog>)
    requires logs != []
    ensures CommitBatch(db, allow, logs).Success? ==> SameContract(db, CommitBatch(db, allow, logs).value)
  {
    hide StoreHeaders, RecordEvents;
  }

  /** Replay agreement is kept by every commit of a next batch. */
  lemma CommitKeepsAgreement(db: Db, l: Ledger, scanStart: nat, logs: seq<BlockLog>, allowReindexRecovery: bool)
    requires Agrees(db, l, scanStart) && NextBatch(l, scanStart, logs) && logs != []
    requires CommitBatch(db, allowReindexRecovery, logs).Success?
    ensures Agrees(CommitBatch(db, allowReindexRecovery, logs).value, Extend(l, logs), scanStart)
  {
    CommitExtendsLedger(db, l, scanStart, logs, allowReindexRecovery);
    AllEventsAppend(History(l), logs);
    ReplayAppend(EMPTY_TABLES, AllEvents(History(l)), AllEvents(logs));
  }
}
