/** catchUpToReindexTarget: ingests until the checkpoint has reached the target of a reindex. */
module CatchUp {
  import opened Wrappers
  import opened Domain
  import opened ProjectionTables
  import opened JournalDatabase
  import opened Ledger
  import opened CommitLedger
  import opened RangeBatch
  import opened SteadyChain
  import opened ChainAccess
  import opened ProjectionStore
  import opened IngestRange

  datatype CatchUpError =
    | CheckpointUnreadable(cause: StoreError)
    | IngestFailed(reason: IngestError)
    | NoProgress

  /** The process died during a read. */
  predicate Died(error: CatchUpError) {
    error.IngestFailed? && error.reason == ReadFailed(Killed)
  }

  ghost predicate EventsFrom(logs: seq<BlockLog>, eventsOf: Hash -> seq<OrderedEvent>) {
    forall log <- logs :: log.events == eventsOf(log.header.hash)
  }

  lemma FetchedEvents(chain: ChainReader, logs: seq<BlockLog>, lo: nat, hi: nat, eventsOf: Hash -> seq<OrderedEvent>)
    requires FetchedBatch(chain, logs, lo, hi) && LogsFixed(chain, eventsOf)
    ensures EventsFrom(logs, eventsOf)
  {
    var t :| LogsFetchedAt(chain, t, logs);
    forall log <- logs ensures log.events == eventsOf(log.header.hash) {
      var i :| 0 <= i < |logs| && logs[i] == log;
      assert Headers(logs)[i] in Headers(logs);
    }
  }

  /** `grown` is `l` with blocks added, none of them above the target. */
  ghost predicate GrownTo(l: Ledger, added: seq<BlockLog>, grown: Ledger, scanStart: nat, target: nat, headerOf: Hash -> BlockHeader) {
    && WellFormed(l, scanStart) && WellFormed(grown, scanStart) && HeadersKnown(grown, headerOf)
    && History(grown) == History(l) + added
    && (added != [] ==> scanStart + |grown.canon| - 1 <= target)
  }

  lemma NothingGrown(db: Db, l: Ledger, scanStart: nat, target: nat, headerOf: Hash -> BlockHeader)
    requires Agrees(db, l, scanStart) && HeadersKnown(l, headerOf)
    ensures GrownTo(l, [], l, scanStart, target, headerOf)
  {
  }

  /** One pass adds its batch. */
  lemma PassGrows(a: Db, l: Ledger, added: seq<BlockLog>, now: Ledger, scanStart: nat, logs: seq<BlockLog>,
                  b: Db, target: nat, headerOf: Hash -> BlockHeader)
    requires GrownTo(l, added, now, scanStart, target, headerOf)
    requires Agrees(a, now, scanStart) && Passed(a, now, scanStart, logs, b)
    requires logs != [] ==> HeadersKnown(Extend(now, logs), headerOf) && EndOf(logs).number <= target
    ensures Agrees(b, Extend(now, logs), scanStart)
    ensures GrownTo(l, added + logs, Extend(now, logs), scanStart, target, headerOf)
    ensures |Extend(now, logs).canon| == |now.canon| + |logs|
  {
    hide Agrees, GrownTo, Committed, HeadersKnown;
    PassKeepsAgreement(a, now, scanStart, logs, b);
    if logs == [] {
      assert added + logs == added;
    } else {
      GrownByBatch(a, l, added, now, scanStart, logs, b, target, headerOf);
    }
  }

  /** Where fetched logs are fixed, what a pass adds has them. */
  lemma PassAddsEvents(chain: ChainReader, added: seq<BlockLog>, logs: seq<BlockLog>, lo: nat, hi: nat, eventsOf: Hash -> seq<OrderedEvent>)
    requires logs != [] ==> FetchedBatch(chain, logs, lo, hi)
    ensures LogsFixed(chain, eventsOf) && EventsFrom(added, eventsOf) ==> EventsFrom(added + logs, eventsOf)
  {
    hide FetchedBatch, LogsFixed, EventsFrom;
    if LogsFixed(chain, eventsOf) && EventsFrom(added, eventsOf) {
      if logs == [] {
        assert added + logs == added;
      } else {
        FetchedEvents(chain, logs, lo, hi, eventsOf);
        GrownEvents(added, logs, eventsOf);
      }
    }
  }

  lemma GrownEvents(a: seq<BlockLog>, b: seq<BlockLog>, eventsOf: Hash -> seq<OrderedEvent>)
    requires EventsFrom(a, eventsOf) && EventsFrom(b, eventsOf)
    ensures EventsFrom(a + b, eventsOf)
  {
  }

  lemma GrownByBatch(a: Db, l: Ledger, added: seq<BlockLog>, now: Ledger, scanStart: nat, logs: seq<BlockLog>, b: Db,
                     target: nat, headerOf: Hash -> BlockHeader)
    requires GrownTo(l, added, now, scanStart, target, headerOf)
    requires Committed(a, now, scanStart, logs, b)
    requires HeadersKnown(Extend(now, logs), headerOf) && EndOf(logs).number <= target
    ensures GrownTo(l, added + logs, Extend(now, logs), scanStart, target, headerOf)
    ensures |Extend(now, logs).canon| == |now.canon| + |logs|
  {
    hide EventsRepresent, BlocksRepresent, NextBatch, WellFormed, HeadersKnown, Extend, Replay, Represents, AllEvents, CommitsTo;
    var grown := Extend(now, logs);
    CommittedIsWellFormed(a, now, scanStart, logs, b);
    CanonIsArchived(l, scanStart);
    assert History(grown) == History(l) + (added + logs);
    LastNumber(now, scanStart, logs);
  }

  lemma CommittedIsWellFormed(a: Db, now: Ledger, scanStart: nat, logs: seq<BlockLog>, b: Db)
    requires Committed(a, now, scanStart, logs, b)
    ensures WellFormed(now, scanStart) && WellFormed(Extend(now, logs), scanStart)
    ensures (forall h <- now.canon :: h in now.archive) && (forall h <- Extend(now, logs).canon :: h in Extend(now, logs).archive)
    ensures logs != [] && History(Extend(now, logs)) == History(now) + logs
  {
  }

  lemma LastNumber(now: Ledger, scanStart: nat, logs: seq<BlockLog>)
    requires WellFormed(now, scanStart) && WellFormed(Extend(now, logs), scanStart)
    requires logs != [] && History(Extend(now, logs)) == History(now) + logs
    ensures scanStart + |Extend(now, logs).canon| - 1 == EndOf(logs).number
  {
    var grown := Extend(now, logs);
    var top := |grown.canon| - 1;
    assert History(grown)[top] == logs[|logs| - 1];
    assert grown.archive[grown.canon[top]].header.number == scanStart + top;
  }

  /** The target lies on what a steady chain lets be indexed. */
  predicate InReach(config: Config, f: Chain, scanStart: nat, target: nat) {
    && config.batchSize >= 1 && TargetReadable(config.finality, config.depth) && f.finalized <= f.head
    && scanStart <= target && EligibleHeight(f, config.finality, config.depth).Some?
    && target <= EligibleHeight(f, config.finality, config.depth).value
  }

  lemma SmoothIsOnChain(chain: ChainReader, db: Db, l: Ledger, scanStart: nat, allow: bool, f: Chain)
    ensures Smooth(chain, db, l, scanStart, allow, f) ==> OnChain(l, f, scanStart)
  {
  }

  /** A pass over a steady chain leaves nothing in the way of the next. */
  lemma SmoothOn(chain: ChainReader, a: Db, l: Ledger, scanStart: nat, allow: bool, logs: seq<BlockLog>, b: Db, f: Chain)
    requires Smooth(chain, a, l, scanStart, allow, f) && (b.status.RecoveryRequired? ==> a.status.RecoveryRequired?)
    requires Passed(a, l, scanStart, logs, b) && Agrees(b, Extend(l, logs), scanStart)
    requires logs != [] && logs == ChainLogs(f, scanStart + |l.canon|, |logs|)
    ensures Smooth(chain, b, Extend(l, logs), scanStart, allow, f)
  {
    hide ChainAccepted, Honest, LogsFixed, NextBatch;
    NextAccepted(a, l, f, scanStart, |logs|);
    CommittedIsWellFormed(a, l, scanStart, logs, b);
    ExtendedOnChain(l, f, scanStart, |logs|);
  }

  lemma FaithfulBlock(chain: ChainReader, f: Chain, grown: Ledger, scanStart: nat, n: nat, logs: seq<BlockLog>, i: nat,
                      lo: nat, hi: nat)
    requires chain.Faithful(f) && FetchedBatch(chain, logs, lo, hi) && EventsFrom(logs, f.eventsOf) && i < |logs|
    requires WellFormed(grown, scanStart) && |grown.canon| == n + |logs| && History(grown)[n..] == logs
    ensures logs[i] == LogAt(f, scanStart + n + i)
  {
    hide LogsFetchedAt, WellFormedLog;
    assert History(grown)[n..][i] == History(grown)[n + i] && logs[i] in logs;
    assert grown.archive[grown.canon[n + i]].header.number == scanStart + n + i;
    assert chain.Reported(logs[i].header, lo, hi);
  }

  /** Blocks fetched from a chain that does not change extend its history. */
  lemma FaithfulBatch(chain: ChainReader, f: Chain, now: Ledger, scanStart: nat, logs: seq<BlockLog>, lo: nat, hi: nat)
    requires chain.Faithful(f) && LogsFixed(chain, f.eventsOf) && OnChain(now, f, scanStart) && FetchedBatch(chain, logs, lo, hi)
    requires WellFormed(Extend(now, logs), scanStart) && History(Extend(now, logs)) == History(now) + logs
    ensures OnChain(Extend(now, logs), f, scanStart)
  {
    hide Extend, LogsFixed, Honest, WellFormedLog, FetchedBatch, EventsFrom, ChainReader.Faithful;
    FetchedEvents(chain, logs, lo, hi, f.eventsOf);
    var n, grown := |now.canon|, Extend(now, logs);
    assert |grown.canon| == |History(grown)| && History(grown)[n..] == logs;
    forall i | 0 <= i < |logs| ensures logs[i] == LogAt(f, scanStart + n + i) {
      FaithfulBlock(chain, f, grown, scanStart, n, logs, i, lo, hi);
    }
    assert logs == ChainLogs(f, scanStart + n, |logs|);
    HonestContent(now, f, logs);
    ExtendedOnChain(now, f, scanStart, |logs|);
  }

  lemma PassStaysOnChain(chain: ChainReader, f: Chain, a: Db, now: Ledger, scanStart: nat, logs: seq<BlockLog>, b: Db,
                           lo: nat, hi: nat)
    requires chain.Faithful(f) && LogsFixed(chain, f.eventsOf) && OnChain(now, f, scanStart)
    requires Passed(a, now, scanStart, logs, b) && (logs != [] ==> FetchedBatch(chain, logs, lo, hi))
    ensures OnChain(Extend(now, logs), f, scanStart)
  {
    hide OnChain, ChainReader.Faithful, FetchedBatch, LogsFixed, NextBatch;
    if logs != [] {
      CommittedIsWellFormed(a, now, scanStart, logs, b);
      FaithfulBatch(chain, f, now, scanStart, logs, lo, hi);
    }
  }

  /** One pass of ingestRange on the way to the target. */
  method Pass(chain: ChainReader, store: Store, config: Config, target: nat, ghost headerOf: Hash -> BlockHeader,
              ghost eventsOf: Hash -> seq<OrderedEvent>, ghost l: Ledger, ghost added: seq<BlockLog>, ghost grown: Ledger, ghost f: Chain)
    returns (failed: Option<IngestError>, ghost logs: seq<BlockLog>)
    requires chain.Sane(headerOf)
    requires store.db.Valid() && store.logScope == store.db.logScope
    requires Agrees(store.db.State(), grown, store.db.scanStart)
    requires GrownTo(l, added, grown, store.db.scanStart, target, headerOf)
    requires config.startBlock == store.db.scanStart && config.maximumTarget == Some(target)
    modifies chain, store.db
    ensures store.db.Valid() && Agrees(store.db.State(), Extend(grown, logs), store.db.scanStart)
    ensures GrownTo(l, added + logs, Extend(grown, logs), store.db.scanStart, target, headerOf)
    ensures LogsFixed(chain, eventsOf) && EventsFrom(added, eventsOf) ==> EventsFrom(added + logs, eventsOf)
    ensures |Extend(grown, logs).canon| == |grown.canon| + |logs|
    ensures old(store.db.status).RecoveryRequired? ==> store.db.status.RecoveryRequired?
    ensures store.db.logScope == old(store.db.logScope) && store.db.projectorVersion == old(store.db.projectorVersion)
    ensures old(chain.Responsive(f)) ==> chain.Responsive(f)
    ensures old(chain.Responsive(f)) && InReach(config, f, store.db.scanStart, target)
            && store.db.scanStart + |grown.canon| <= target
            && Smooth(chain, old(store.db.State()), grown, store.db.scanStart, store.allowReindexRecovery, f) ==>
              && failed.None? && logs != []
              && Smooth(chain, store.db.State(), Extend(grown, logs), store.db.scanStart, store.allowReindexRecovery, f)
    ensures chain.Faithful(f) && LogsFixed(chain, f.eventsOf) && OnChain(grown, f, store.db.scanStart) ==>
              OnChain(Extend(grown, logs), f, store.db.scanStart)
  {
    hide Agrees, Represents, GrownTo, FetchedBatch, PlannedThenFetched, Passed, HeadersKnown, Extend, LogsFixed, Smooth, OnChain,
         ChainReader.Responsive, ChainReader.Sane, ChainReader.Faithful, ChainLogs;
    ghost var state := store.db.State();
    AgreeingState(state, grown, store.db.scanStart, l, added, target, headerOf);
    ghost var smooth := chain.Responsive(f) && InReach(config, f, store.db.scanStart, target)
                        && store.db.scanStart + |grown.canon| <= target
                        && Smooth(chain, state, grown, store.db.scanStart, store.allowReindexRecovery, f);
    failed, logs := IngestRange.IngestRange(chain, store, config, headerOf, grown, f);
    if logs != [] {
      FetchedInPass(chain, config, logs, old(chain.clock), chain.clock);
    }
    PassAddsEvents(chain, added, logs, old(chain.clock), chain.clock, eventsOf);
    PassGrows(state, l, added, grown, store.db.scanStart, logs, store.db.State(), target, headerOf);
    PassedKeepsContract(state, grown, store.db.scanStart, logs, store.db.State());
    if smooth {
      SmoothOn(chain, state, grown, store.db.scanStart, store.allowReindexRecovery, logs, store.db.State(), f);
    }
    if chain.Faithful(f) && LogsFixed(chain, f.eventsOf) && OnChain(grown, f, store.db.scanStart) {
      PassStaysOnChain(chain, f, state, grown, store.db.scanStart, logs, store.db.State(), old(chain.clock), chain.clock);
    }
  }

  /** The height the checkpoint has reached. */
  method ReadReached(store: Store, ghost grown: Ledger) returns (r: Result<Option<nat>, StoreError>)
    requires Agrees(store.db.State(), grown, store.db.scanStart)
    ensures r == Success(if grown.canon == [] then None else Some(store.db.scanStart + |grown.canon| - 1))
    ensures store.db.checkpoint.Some? <==> grown.canon != []
    ensures store.db.checkpoint.Some? ==> store.db.checkpoint.value.number == store.db.scanStart + |grown.canon| - 1
  {
    CheckpointHeader(store.db.State(), grown, store.db.scanStart);
    var read := store.ReadCheckpoint();
    if read.Failure? {
      return Failure(CheckpointBlockMissing);
    }
    return Success(if read.value.Some? then Some(read.value.value.number) else None);
  }

  datatype Round = Reached | Advanced | Stopped(error: CatchUpError)

  /** One round of the loop: done at or above the target, otherwise a pass that has to raise the checkpoint. */
  method Advance(chain: ChainReader, store: Store, config: Config, target: nat, ghost headerOf: Hash -> BlockHeader,
                 ghost eventsOf: Hash -> seq<OrderedEvent>, ghost l: Ledger, ghost added: seq<BlockLog>, ghost grown: Ledger, ghost f: Chain)
    returns (round: Round, ghost logs: seq<BlockLog>)
    requires chain.Sane(headerOf)
    requires store.db.Valid() && store.logScope == store.db.logScope
    requires Agrees(store.db.State(), grown, store.db.scanStart)
    requires GrownTo(l, added, grown, store.db.scanStart, target, headerOf)
    requires config.startBlock == store.db.scanStart && config.maximumTarget == Some(target)
    modifies chain, store.db
    ensures store.db.Valid() && Agrees(store.db.State(), Extend(grown, logs), store.db.scanStart)
    ensures GrownTo(l, added + logs, Extend(grown, logs), store.db.scanStart, target, headerOf)
    ensures LogsFixed(chain, eventsOf) && EventsFrom(added, eventsOf) ==> EventsFrom(added + logs, eventsOf)
    ensures round.Reached? ==> logs == [] && store.db.checkpoint.Some? && store.db.checkpoint.value.number >= target
    ensures round.Advanced? ==> |grown.canon| < |Extend(grown, logs).canon| <= target + 1 - store.db.scanStart
    ensures old(store.db.status).RecoveryRequired? ==> store.db.status.RecoveryRequired?
    ensures store.db.logScope == old(store.db.logScope) && store.db.projectorVersion == old(store.db.projectorVersion)
    ensures old(chain.Responsive(f)) ==> chain.Responsive(f)
    ensures old(chain.Responsive(f)) && InReach(config, f, store.db.scanStart, target)
            && Smooth(chain, old(store.db.State()), grown, store.db.scanStart, store.allowReindexRecovery, f) ==>
              !round.Stopped? && Smooth(chain, store.db.State(), Extend(grown, logs), store.db.scanStart, store.allowReindexRecovery, f)
    ensures chain.Faithful(f) && LogsFixed(chain, f.eventsOf) && OnChain(grown, f, store.db.scanStart) ==>
              OnChain(Extend(grown, logs), f, store.db.scanStart)
  {
    hide Agrees, Represents, GrownTo, HeadersKnown, LogsFixed, Smooth, OnChain, EventsFrom, ChainReader.Responsive, ChainReader.Sane,
         ChainReader.Faithful, TargetReadable, EligibleHeight, HasCanonicalBlock;
    logs := [];
    assert added + logs == added && Extend(grown, logs) == grown;
    hide Extend;
    var before := ReadReached(store, grown);
    if before.Failure? {
      return Stopped(CheckpointUnreadable(CheckpointBlockMissing)), [];
    }
    if before.value.Some? && before.value.value >= target {
      return Reached, [];
    }
    var failed: Option<IngestError>;
    failed, logs := Pass(chain, store, config, target, headerOf, eventsOf, l, added, grown, f);
    if failed.Some? {
      return Stopped(IngestFailed(failed.value)), logs;
    }
    var after := ReadReached(store, Extend(grown, logs));
    if after.Failure? {
      return Stopped(CheckpointUnreadable(CheckpointBlockMissing)), logs;
    }
    if after.value.None? || (before.value.Some? && after.value.value <= before.value.value) {
      return Stopped(NoProgress), logs;
    }
    AgreeingState(store.db.State(), Extend(grown, logs), store.db.scanStart, l, added + logs, target, headerOf);
    return Advanced, logs;
  }

  /** Runs until the checkpoint is at or above the target, or a pass fails or adds nothing. Every pass raises the
      checkpoint; no commit goes above the target; replay agreement holds throughout. Where a block's logs are the
      same whenever they are fetched, the blocks added have those logs. */
  method CatchUp(chain: ChainReader, store: Store, config: Config, target: nat,
                 ghost headerOf: Hash -> BlockHeader, ghost eventsOf: Hash -> seq<OrderedEvent>, ghost l: Ledger, ghost f: Chain)
    returns (error: Option<CatchUpError>, ghost grown: Ledger, ghost added: seq<BlockLog>)
    requires chain.Sane(headerOf)
    requires store.db.Valid() && store.logScope == store.db.logScope
    requires Agrees(store.db.State(), l, store.db.scanStart) && HeadersKnown(l, headerOf)
    requires config.startBlock == store.db.scanStart && config.maximumTarget == Some(target)
    modifies chain, store.db
    ensures store.db.Valid() && Agrees(store.db.State(), grown, store.db.scanStart)
    ensures GrownTo(l, added, grown, store.db.scanStart, target, headerOf)
    ensures LogsFixed(chain, eventsOf) ==> EventsFrom(added, eventsOf)
    ensures error.None? ==> store.db.checkpoint.Some? && store.db.checkpoint.value.number >= target
    ensures old(store.db.status).RecoveryRequired? ==> store.db.status.RecoveryRequired?
    ensures store.db.logScope == old(store.db.logScope) && store.db.projectorVersion == old(store.db.projectorVersion)
    ensures old(chain.Responsive(f)) ==> chain.Responsive(f)
    ensures old(chain.Responsive(f)) && InReach(config, f, store.db.scanStart, target)
            && Smooth(chain, old(store.db.State()), l, store.db.scanStart, store.allowReindexRecovery, f) ==>
              error.None? && OnChain(grown, f, store.db.scanStart)
    ensures chain.Faithful(f) && LogsFixed(chain, f.eventsOf) && OnChain(l, f, store.db.scanStart) ==> OnChain(grown, f, store.db.scanStart)
  {
    hide *;
    grown, added := l, [];
    NoEvents(eventsOf);
    ghost var smooth := chain.Responsive(f) && InReach(config, f, store.db.scanStart, target)
                        && Smooth(chain, store.db.State(), l, store.db.scanStart, store.allowReindexRecovery, f);
    NothingGrown(store.db.State(), l, store.db.scanStart, target, headerOf);
    while true
      invariant store.db.Valid() && Agrees(store.db.State(), grown, store.db.scanStart)
      invariant GrownTo(l, added, grown, store.db.scanStart, target, headerOf)
      invariant LogsFixed(chain, eventsOf) ==> EventsFrom(added, eventsOf)
      invariant old(store.db.status).RecoveryRequired? ==> store.db.status.RecoveryRequired?
      invariant store.db.logScope == old(store.db.logScope) && store.db.projectorVersion == old(store.db.projectorVersion)
      invariant old(chain.Responsive(f)) ==> chain.Responsive(f)
      invariant chain.Faithful(f) && LogsFixed(chain, f.eventsOf) && OnChain(l, f, store.db.scanStart) ==> OnChain(grown, f, store.db.scanStart)
      invariant smooth ==> Smooth(chain, store.db.State(), grown, store.db.scanStart, store.allowReindexRecovery, f)
      decreases target + 1 - store.db.scanStart - |grown.canon|
    {
      ghost var logs: seq<BlockLog>;
      var round: Round;
      round, logs := Advance(chain, store, config, target, headerOf, eventsOf, l, added, grown, f);
      grown, added := Extend(grown, logs), added + logs;
      SmoothIsOnChain(chain, store.db.State(), grown, store.db.scanStart, store.allowReindexRecovery, f);
      if round.Reached? {
        return None, grown, added;
      }
      if round.Stopped? {
        return Some(round.error), grown, added;
      }
    }
  }

  lemma NoEvents(eventsOf: Hash -> seq<OrderedEvent>)
    ensures EventsFrom([], eventsOf)
  {
  }

  lemma AgreeingState(db: Db, grown: Ledger, scanStart: nat, l: Ledger, added: seq<BlockLog>, target: nat,
                      headerOf: Hash -> BlockHeader)
    requires Agrees(db, grown, scanStart) && GrownTo(l, added, grown, scanStart, target, headerOf)
    ensures Represents(db, grown, scanStart) && HeadersKnown(grown, headerOf)
    ensures db.checkpoint == CheckpointOf(grown, scanStart)
    ensures added != [] ==> scanStart + |grown.canon| - 1 <= target
  {
  }

  lemma PassedKeepsContract(a: Db, l: Ledger, scanStart: nat, logs: seq<BlockLog>, b: Db)
    requires Passed(a, l, scanStart, logs, b)
    ensures b.logScope == a.logScope && b.projectorVersion == a.projectorVersion
  {
  }
}
