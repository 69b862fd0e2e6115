/** ingestRange: one polling pass of the indexer over a chain whose answers may change between calls. */
module IngestRange {
  import opened Wrappers
  import opened Domain
  import opened Listings
  import opened ProjectionTables
  import opened JournalDatabase
  import opened Ledger
  import opened CommitLedger
  import opened RangeBatch
  import opened SteadyChain
  import opened ChainAccess
  import opened ProjectionStore

  datatype Finality = Immediate | RpcFinalized

  datatype IngestError =
    | IndexBatchSizeInvalid
    | IndexingDepthInvalid
    | PublicIndexingDepthUnsupported
    | FinalizedHeadExceedsObservedHead
    | FinalizedBlockHashChanged
    | ChainTransportUnavailable(operation: string)
    | RecoveryNeeded(reason: string)
    | ReadFailed(error: ReadError)
    | StoreFailed(cause: StoreError)

  datatype Observation = Observation(observedHead: BlockHeader, eligibleHead: Option<BlockHeader>)

  datatype Range = Range(headers: seq<BlockHeader>, events: seq<OrderedEvent>)

  /** Transport failures are told apart; every other read error is rethrown as it is. */
  function ReadChain(operation: string, error: ReadError): IngestError {
    if error.TransportUnavailable? then ChainTransportUnavailable(operation) else ReadFailed(error)
  }

  /** Height `n` was eligible when read between two moments: the finalized head, or `depth` below the head. */
  ghost predicate WasEligible(chain: ChainReader, finality: Finality, depth: int, n: nat, lo: nat, hi: nat) {
    match finality
    case Immediate => exists t :: lo <= t < hi && chain.headAt(t).Success? && chain.headAt(t).value.number == n + depth
    case RpcFinalized => exists t :: lo <= t < hi && chain.finalizedAt(t).Success? && chain.finalizedAt(t).value.number == n
  }

  lemma EligibleWithin(chain: ChainReader, finality: Finality, depth: int, n: nat, lo: nat, hi: nat, lo': nat, hi': nat)
    requires WasEligible(chain, finality, depth, n, lo, hi) && lo' <= lo && hi <= hi'
    ensures WasEligible(chain, finality, depth, n, lo', hi')
  {
  }

  /** The settings under which a target can be read at all. */
  predicate TargetReadable(finality: Finality, depth: int) {
    depth >= 0 && (finality.RpcFinalized? ==> depth == 0)
  }

  /** The eligible height of a steady chain: the finalized one, or `depth` below the head. */
  function EligibleHeight(f: Chain, finality: Finality, depth: int): Option<nat>
    requires depth >= 0
  {
    if finality.RpcFinalized? then Some(f.finalized) else if f.head < depth then None else Some(f.head - depth)
  }

  /** The finalized head, if it is not above the head and still the block of its height. */
  method ReadFinalizedTarget(chain: ChainReader, head: BlockHeader, ghost f: Chain) returns (r: Result<Observation, IngestError>)
    modifies chain
    ensures chain.clock > old(chain.clock)
    ensures r.Success? ==>
              && chain.finalizedAt(old(chain.clock)).Success?
              && r.value == Observation(head, Some(chain.finalizedAt(old(chain.clock)).value))
    ensures r.Failure? ==> !r.error.RecoveryNeeded?
    ensures old(chain.Responsive(f)) ==>
              chain.Responsive(f) && (head.number >= f.finalized ==> r == Success(Observation(head, Some(f.block(f.finalized)))))
              && f.block(f.finalized).number == f.finalized <= f.head
  {
    hide ChainReader.ResponsiveFrom;
    ghost var now := chain.clock;
    chain.SteadyAnswers(f, now, now, f.finalized);
    chain.SteadyAnswers(f, now, now + 1, f.finalized);
    chain.StaysResponsive(f, now, now + 1);
    chain.StaysResponsive(f, now, now + 2);
    var finalized := chain.GetFinalizedHead();
    if finalized.Failure? {
      return Failure(ReadChain("projection target", finalized.error));
    }
    if finalized.value.number > head.number {
      return Failure(FinalizedHeadExceedsObservedHead);
    }
    var atHeight := chain.GetBlock(finalized.value.number);
    if atHeight.Failure? {
      return Failure(ReadChain("projection target", atHeight.error));
    }
    if atHeight.value.hash != finalized.value.hash {
      return Failure(FinalizedBlockHashChanged);
    }
    return Success(Observation(head, Some(finalized.value)));
  }

  /** readProjectionTarget: the head and the highest block allowed to be indexed. */
  method ReadProjectionTarget(chain: ChainReader, finality: Finality, depth: int, ghost headerOf: Hash -> BlockHeader, ghost f: Chain)
    returns (r: Result<Observation, IngestError>)
    requires chain.Sane(headerOf)
    modifies chain
    ensures chain.clock >= old(chain.clock)
    ensures depth < 0 ==> r.Failure?
    ensures r.Failure? ==> !r.error.RecoveryNeeded?
    ensures r.Success? && r.value.eligibleHead.Some? ==>
              WasEligible(chain, finality, depth, r.value.eligibleHead.value.number, old(chain.clock), chain.clock)
    ensures old(chain.Responsive(f)) ==> chain.Responsive(f)
    ensures old(chain.Responsive(f)) && TargetReadable(finality, depth) ==>
              && r.Success?
              && match EligibleHeight(f, finality, depth)
                 case None => r.value.eligibleHead.None?
                 case Some(n) => r.value.eligibleHead == Some(f.block(n)) && f.block(n).number == n <= f.head
  {
    hide ChainReader.ResponsiveFrom, LogsMatch, DistinctKeys;
    ghost var now := chain.clock;
    chain.SteadyAnswers(f, now, now, f.head);
    chain.SteadyAnswers(f, now, now + 1, if 0 <= depth <= f.head then f.head - depth else 0);
    chain.StaysResponsive(f, now, now + 1);
    chain.StaysResponsive(f, now, now + 2);
    if depth < 0 {
      return Failure(IndexingDepthInvalid);
    }
    if finality.RpcFinalized? && depth != 0 {
      return Failure(PublicIndexingDepthUnsupported);
    }
    var head := chain.GetHead();
    if head.Failure? {
      return Failure(ReadChain("projection target", head.error));
    }
    if finality.Immediate? {
      if head.value.number < depth {
        return Success(Observation(head.value, None));
      }
      if depth == 0 {
        return Success(Observation(head.value, Some(head.value)));
      }
      var block := chain.GetBlock(head.value.number - depth);
      if block.Failure? {
        return Failure(ReadChain("projection target", block.error));
      }
      return Success(Observation(head.value, Some(block.value)));
    }
    r := ReadFinalizedTarget(chain, head.value, f);
  }

  /** Headers reported between two moments, each the only one of its hash. */
  ghost predicate AllReported(chain: ChainReader, headers: seq<BlockHeader>, headerOf: Hash -> BlockHeader, lo: nat, hi: nat) {
    forall h <- headers :: headerOf(h.hash) == h && chain.Reported(h, lo, hi)
  }

  lemma OneMoreReported(chain: ChainReader, headers: seq<BlockHeader>, header: BlockHeader, headerOf: Hash -> BlockHeader, lo: nat, now: nat)
    requires AllReported(chain, headers, headerOf, lo, now) && lo <= now
    requires headerOf(header.hash) == header && chain.blockAt(now, header.number) == Success(header)
    ensures AllReported(chain, headers + [header], headerOf, lo, now + 1)
  {
    forall h <- headers ensures chain.Reported(h, lo, now + 1) {
      assert chain.Reported(h, lo, now);
    }
    assert chain.Reported(header, lo, now + 1);
  }

  /** The provider called one block of a range too large a range, between two moments. */
  ghost predicate BlockRefused(chain: ChainReader, from: nat, last: nat, lo: nat, hi: nat) {
    exists t, n: nat :: lo <= t < hi && from <= n <= last && chain.blockAt(t, n) == Failure(RangeLimit)
  }

  method ReadHeaders(chain: ChainReader, from: nat, upTo: nat, ghost headerOf: Hash -> BlockHeader, ghost f: Chain)
    returns (r: Result<seq<BlockHeader>, IngestError>)
    requires chain.Sane(headerOf) && from <= upTo
    modifies chain
    ensures chain.clock >= old(chain.clock)
    ensures r.Success? ==>
              && |r.value| == upTo - from + 1 && ConsecutiveHeaders(r.value, from)
              && AllReported(chain, r.value, headerOf, old(chain.clock), chain.clock)
    ensures old(chain.Responsive(f)) ==> chain.Responsive(f)
    ensures r.Failure? ==> !r.error.RecoveryNeeded?
    ensures r == Failure(ReadFailed(RangeLimit)) ==> BlockRefused(chain, from, upTo, old(chain.clock), chain.clock)
    ensures old(chain.Responsive(f)) && upTo <= f.head ==> r.Success? && Stretch(f, r.value, from)
  {
    var headers: seq<BlockHeader> := [];
    assert AllReported(chain, headers, headerOf, chain.clock, chain.clock);
    hide ChainReader.ResponsiveFrom, AllReported;
    for number := from to upTo + 1
      invariant chain.clock >= old(chain.clock)
      invariant |headers| == number - from && ConsecutiveHeaders(headers, from)
      invariant AllReported(chain, headers, headerOf, old(chain.clock), chain.clock)
      invariant old(chain.Responsive(f)) ==> chain.Responsive(f)
      invariant old(chain.Responsive(f)) && upTo <= f.head ==> Stretch(f, headers, from)
    {
      chain.SteadyAnswers(f, chain.clock, chain.clock, number);
      chain.StaysResponsive(f, chain.clock, chain.clock + 1);
      var block := chain.GetBlock(number);
      if block.Failure? {
        return Failure(ReadChain("block", block.error));
      }
      OneMoreReported(chain, headers, block.value, headerOf, old(chain.clock), chain.clock - 1);
      headers := headers + [block.value];
    }
    return Success(headers);
  }

  /** What getEvents answered for these headers, between two moments. */
  ghost predicate Fetched(chain: ChainReader, range: Range, lo: nat, hi: nat) {
    exists t :: lo <= t < hi && chain.logsAt(t, range.headers) == Success(range.events)
  }

  lemma StretchOnChain(f: Chain, headers: seq<BlockHeader>, from: nat)
    ensures (forall n: nat :: LinkedAt(f, n)) && Stretch(f, headers, from) && from + |headers| - 1 <= f.head ==>
              forall h <- headers :: h.number <= f.head && f.block(h.number) == h
  {
    if (forall n: nat :: LinkedAt(f, n)) && Stretch(f, headers, from) && from + |headers| - 1 <= f.head {
      forall h <- headers ensures h.number <= f.head && f.block(h.number) == h {
        var i :| 0 <= i < |headers| && headers[i] == h;
        assert LinkedAt(f, from + i);
      }
    }
  }

  /** The provider called even one block's logs, or one block, too large a range, between two moments. */
  ghost predicate RefusedSingly(chain: ChainReader, from: nat, last: nat, lo: nat, hi: nat) {
    || (exists t, headers: seq<BlockHeader> ::
          lo <= t < hi && |headers| == 1 && headers[0].number == from && chain.logsAt(t, headers) == Failure(RangeLimit))
    || BlockRefused(chain, from, last, lo, hi)
  }

  /** Reads headers and logs, halving the range while the provider refuses it. */
  method FetchRange(chain: ChainReader, from: nat, last: nat, ghost headerOf: Hash -> BlockHeader, ghost f: Chain)
    returns (r: Result<Range, IngestError>)
    requires chain.Sane(headerOf) && from <= last
    modifies chain
    ensures chain.clock >= old(chain.clock)
    ensures r.Success? ==>
              && 1 <= |r.value.headers| <= last - from + 1 && ConsecutiveHeaders(r.value.headers, from)
              && AllReported(chain, r.value.headers, headerOf, old(chain.clock), chain.clock)
              && Fetched(chain, r.value, old(chain.clock), chain.clock)
    ensures r.Failure? ==> !r.error.RecoveryNeeded?
    ensures r == Failure(ReadFailed(RangeLimit)) ==> RefusedSingly(chain, from, last, old(chain.clock), chain.clock)
    ensures old(chain.Responsive(f)) ==> chain.Responsive(f)
    ensures old(chain.Responsive(f)) && last <= f.head ==>
              r.Success? && Stretch(f, r.value.headers, from) && LogsMatch(r.value.headers, r.value.events)
  {
    var upTo := last;
    while true
      invariant from <= upTo <= last && chain.clock >= old(chain.clock)
      invariant old(chain.Responsive(f)) ==> chain.Responsive(f)
      decreases upTo
    {
      var headers := ReadHeaders(chain, from, upTo, headerOf, f);
      if headers.Failure? {
        return Failure(headers.error);
      }
      assert chain.Responsive(f) ==> chain.AnswersAt(f, chain.clock);
      StretchOnChain(f, headers.value, from);
      var events := chain.GetEvents(headers.value);
      if events.Success? {
        return Success(Range(headers.value, events.value));
      }
      if !events.error.TransportUnavailable? && !events.error.RangeLimit? {
        return Failure(ReadFailed(events.error));
      }
      if upTo == from {
        return Failure(ReadChain("event range", events.error));
      }
      upTo := from + (upTo - from) / 2;
    }
  }

  /** The hash of each fetched height. */
  method HashByNumber(headers: seq<BlockHeader>, ghost from: nat) returns (hashAt: map<nat, Hash>)
    requires ConsecutiveHeaders(headers, from)
    ensures forall n :: n in hashAt <==> from <= n < from + |headers|
    ensures forall n <- hashAt :: hashAt[n] == headers[n - from].hash
  {
    hashAt := map[];
    for i := 0 to |headers|
      invariant forall n :: n in hashAt <==> from <= n < from + i
      invariant forall n <- hashAt :: hashAt[n] == headers[n - from].hash
    {
      hashAt := hashAt[headers[i].number := headers[i].hash];
    }
  }

  method AllEventsMatch(headers: seq<BlockHeader>, ghost from: nat, events: seq<OrderedEvent>) returns (all: bool)
    requires ConsecutiveHeaders(headers, from)
    ensures all <==> EventsMatchHeaders(headers, from, events)
  {
    var hashAt := HashByNumber(headers, from);
    for i := 0 to |events|
      invariant forall k :: 0 <= k < i ==> events[k].envelope.blockNumber in hashAt
                                           && hashAt[events[k].envelope.blockNumber] == events[k].envelope.blockHash
    {
      var e := events[i].envelope;
      if e.blockNumber !in hashAt || hashAt[e.blockNumber] != e.blockHash {
        assert events[i] in events;
        return false;
      }
    }
    return true;
  }

  predicate Continues(checkpoint: Option<BlockHeader>, range: Range)
    requires range.headers != []
  {
    checkpoint.Some? ==> range.headers[0].parentHash == checkpoint.value.hash
  }

  /** The continuity checks on a fetched range; None when it may be committed. */
  method FindDiscontinuity(checkpoint: Option<BlockHeader>, ghost from: nat, range: Range) returns (problem: Option<string>)
    requires range.headers != [] && ConsecutiveHeaders(range.headers, from)
    ensures problem ==
            if !Continues(checkpoint, range) then Some("CHECKPOINT_PARENT_DISCONTINUITY")
            else if !LinkedHeaders(range.headers) then Some("PARENT_DISCONTINUITY")
            else if !EventsMatchHeaders(range.headers, from, range.events) then Some("LOG_BLOCK_HASH_MISMATCH")
            else None
  {
    var headers := range.headers;
    if checkpoint.Some? && headers[0].parentHash != checkpoint.value.hash {
      return Some("CHECKPOINT_PARENT_DISCONTINUITY");
    }
    for i := 1 to |headers|
      invariant forall k :: 0 < k < i ==> headers[k].parentHash == headers[k - 1].hash
    {
      if headers[i].parentHash != headers[i - 1].hash {
        return Some("PARENT_DISCONTINUITY");
      }
    }
    var matching := AllEventsMatch(headers, from, range.events);
    return if matching then None else Some("LOG_BLOCK_HASH_MISMATCH");
  }

  // ---- the pass ----

  datatype Config = Config(batchSize: int, startBlock: nat, depth: int, maximumTarget: Option<nat>, finality: Finality)

  /** Only the status columns differ. */
  predicate StatusOnly(a: Db, b: Db) {
    b == a.(status := b.status, reason := b.reason)
  }

  /** `b` is `a` with one batch committed. */
  ghost predicate Committed(a: Db, l: Ledger, scanStart: nat, logs: seq<BlockLog>, b: Db) {
    && logs != [] && WellFormed(l, scanStart) && NextBatch(l, scanStart, logs)
    && Represents(b, Extend(l, logs), scanStart)
    && History(Extend(l, logs)) == History(l) + logs
    && Replay(a.tables, AllEvents(logs)) == Success(b.tables)
    && b.projectorVersion == a.projectorVersion && b.buildId == a.buildId && b.logScope == a.logScope
    && CommitsTo(a, logs, b)
  }

  /** Up to the status, `b` is what the commit transaction makes of `a`. */
  ghost predicate CommitsTo(a: Db, logs: seq<BlockLog>, b: Db) {
    logs != [] && CommitBatch(a, true, logs).Success? && StatusOnly(CommitBatch(a, true, logs).value, b)
  }

  lemma CommitIgnoresStatus(a: Db, b: Db, logs: seq<BlockLog>, c: Db)
    requires StatusOnly(a, b) && CommitsTo(b, logs, c)
    ensures CommitsTo(a, logs, c)
  {
    hide StoreHeaders, RecordEvents;
  }

  lemma CommitAllowed(db: Db, allow: bool, logs: seq<BlockLog>)
    requires logs != [] && CommitBatch(db, allow, logs).Success?
    ensures CommitsTo(db, logs, CommitBatch(db, allow, logs).value)
  {
    hide StoreHeaders, RecordEvents;
  }

  /** A pass either changes the status alone or commits one batch. */
  ghost predicate Passed(a: Db, l: Ledger, scanStart: nat, logs: seq<BlockLog>, b: Db) {
    if logs == [] then StatusOnly(a, b) else Committed(a, l, scanStart, logs, b)
  }

  lemma StatusKeepsRepresents(a: Db, b: Db, l: Ledger, scanStart: nat)
    requires Represents(a, l, scanStart) && StatusOnly(a, b)
    ensures Represents(b, l, scanStart)
  {
  }

  lemma StatusAfterCommit(a: Db, l: Ledger, scanStart: nat, logs: seq<BlockLog>, b: Db, c: Db)
    requires Passed(a, l, scanStart, logs, b) && StatusOnly(b, c)
    ensures Passed(a, l, scanStart, logs, c)
  {
    hide CommitTransaction;
  }

  lemma StatusBeforeCommit(a: Db, l: Ledger, scanStart: nat, logs: seq<BlockLog>, b: Db, c: Db)
    requires StatusOnly(a, b) && Passed(b, l, scanStart, logs, c)
    ensures Passed(a, l, scanStart, logs, c)
  {
    hide CommitsTo;
    if logs != [] {
      CommitIgnoresStatus(a, b, logs, c);
    }
  }

  lemma StatusOnlyPasses(a: Db, l: Ledger, scanStart: nat, b: Db)
    requires StatusOnly(a, b)
    ensures Passed(a, l, scanStart, [], b)
  {
  }

  /** Replay agreement survives every pass, whatever the chain answered. */
  lemma PassKeepsAgreement(a: Db, l: Ledger, scanStart: nat, logs: seq<BlockLog>, b: Db)
    requires Agrees(a, l, scanStart) && Passed(a, l, scanStart, logs, b)
    ensures Agrees(b, Extend(l, logs), scanStart)
  {
    if logs != [] {
      AllEventsAppend(History(l), logs);
      ReplayAppend(EMPTY_TABLES, AllEvents(History(l)), AllEvents(logs));
    }
  }

  /** A committed pass raises the checkpoint by the number of blocks it committed. */
  lemma PassRaisesCheckpoint(a: Db, l: Ledger, scanStart: nat, logs: seq<BlockLog>, b: Db)
    requires Represents(a, l, scanStart) && Committed(a, l, scanStart, logs, b)
    ensures b.checkpoint.Some? && b.checkpoint.value.number == scanStart + |l.canon| + |logs| - 1
    ensures a.checkpoint.Some? ==> b.checkpoint.value.number == a.checkpoint.value.number + |logs|
  {
    ExtendIsWellFormed(l, scanStart, logs);
  }

  /** What a committed batch owes to the reads between two moments: reported headers and the logs fetched for them. */
  ghost predicate FetchedBatch(chain: ChainReader, logs: seq<BlockLog>, lo: nat, hi: nat) {
    && (forall log <- logs :: chain.Reported(log.header, lo, hi))
    && exists t :: lo <= t < hi && LogsFetchedAt(chain, t, logs)
  }

  lemma FetchedWithin(chain: ChainReader, logs: seq<BlockLog>, lo: nat, hi: nat, lo': nat, hi': nat)
    requires FetchedBatch(chain, logs, lo, hi) && lo' <= lo && hi <= hi'
    ensures FetchedBatch(chain, logs, lo', hi')
  {
    hide LogsFetchedAt;
    forall log <- logs ensures chain.Reported(log.header, lo', hi') {
      assert chain.Reported(log.header, lo, hi);
    }
  }

  ghost predicate LogsFetchedAt(chain: ChainReader, t: nat, logs: seq<BlockLog>) {
    && chain.logsAt(t, Headers(logs)).Success?
    && forall i :: 0 <= i < |logs| ==>
         logs[i].events == AtHeight(SortEvents(chain.logsAt(t, Headers(logs)).value), logs[i].header.number)
  }

  /** The pass stopped and raised the recovery barrier, for this reason. */
  predicate Raised(error: Option<IngestError>, db: Db, reason: string) {
    error.Some? && error.value.RecoveryNeeded? && db.status.RecoveryRequired? && db.reason == Some(reason)
  }

  function LostCheckpoint(finality: Finality, reason: string): string {
    if finality.RpcFinalized? then "FINALIZED_BLOCK_HASH_CHANGED" else reason
  }

  /** The pass never asks for recovery without raising the barrier. */
  predicate Announced(error: Option<IngestError>, db: Db) {
    error.Some? && error.value.RecoveryNeeded? ==> db.status.RecoveryRequired?
  }

  /** Is the checkpoint block still on the chain? */
  method CheckCheckpoint(chain: ChainReader, store: Store, checkpoint: BlockHeader, finality: Finality, ghost f: Chain)
    returns (error: Option<IngestError>)
    requires store.db.Valid()
    modifies chain, store.db
    ensures store.db.Valid() && StatusOnly(old(store.db.State()), store.db.State())
    ensures old(store.db.status).RecoveryRequired? ==> store.db.status.RecoveryRequired?
    ensures chain.clock > old(chain.clock)
    ensures error.None? ==>
              var block := chain.blockAt(old(chain.clock), checkpoint.number);
              block.Success? && block.value.hash == checkpoint.hash
    ensures error.None? ==> store.db.State() == old(store.db.State())
    ensures match chain.blockAt(old(chain.clock), checkpoint.number)
            case Success(block) =>
              if block.hash == checkpoint.hash then error.None?
              else Raised(error, store.db.State(), LostCheckpoint(finality, "CHECKPOINT_HASH_CHANGED"))
            case Failure(cause) =>
              if cause.BlockNotFound? then Raised(error, store.db.State(), LostCheckpoint(finality, "CHECKPOINT_BLOCK_UNAVAILABLE"))
              else error == Some(ReadChain("checkpoint block", cause)) && store.db.State() == old(store.db.State())
    ensures old(chain.Responsive(f)) ==> chain.Responsive(f)
    ensures old(chain.Responsive(f)) && checkpoint.number <= f.head && f.block(checkpoint.number).hash == checkpoint.hash ==> error.None?
  {
    hide ChainReader.ResponsiveFrom;
    chain.SteadyAnswers(f, chain.clock, chain.clock, checkpoint.number);
    chain.StaysResponsive(f, chain.clock, chain.clock + 1);
    var canonical := chain.GetBlock(checkpoint.number);
    if canonical.Failure? {
      if !canonical.error.BlockNotFound? {
        return Some(ReadChain("checkpoint block", canonical.error));
      }
      store.MarkRecoveryRequired(LostCheckpoint(finality, "CHECKPOINT_BLOCK_UNAVAILABLE"));
      return Some(RecoveryNeeded("checkpoint block unavailable"));
    }
    if canonical.value.hash != checkpoint.hash {
      store.MarkRecoveryRequired(LostCheckpoint(finality, "CHECKPOINT_HASH_CHANGED"));
      return Some(RecoveryNeeded("checkpoint hash changed"));
    }
    return None;
  }

  method ReadTarget(chain: ChainReader, store: Store, finality: Finality, depth: int, ghost headerOf: Hash -> BlockHeader, ghost f: Chain)
    returns (r: Result<Observation, IngestError>)
    requires chain.Sane(headerOf) && store.db.Valid()
    modifies chain, store.db
    ensures store.db.Valid() && StatusOnly(old(store.db.State()), store.db.State())
    ensures old(store.db.status).RecoveryRequired? ==> store.db.status.RecoveryRequired?
    ensures chain.clock >= old(chain.clock)
    ensures r.Success? && r.value.eligibleHead.Some? ==>
              WasEligible(chain, finality, depth, r.value.eligibleHead.value.number, old(chain.clock), chain.clock)
    ensures r.Success? ==> store.db.State() == old(store.db.State())
    ensures r.Failure? ==> !r.error.RecoveryNeeded? && (r.error.FinalizedBlockHashChanged? ==> store.db.status.RecoveryRequired?)
    ensures old(chain.Responsive(f)) ==> chain.Responsive(f)
    ensures old(chain.Responsive(f)) && TargetReadable(finality, depth) ==>
              && r.Success?
              && match EligibleHeight(f, finality, depth)
                 case None => r.value.eligibleHead.None?
                 case Some(n) => r.value.eligibleHead == Some(f.block(n)) && f.block(n).number == n <= f.head
  {
    r := ReadProjectionTarget(chain, finality, depth, headerOf, f);
    if r.Failure? && r.error.FinalizedBlockHashChanged? {
      store.MarkRecoveryRequired("FINALIZED_BLOCK_HASH_CHANGED");
    }
  }

  /** What every check of a fetched, sorted range establishes. */
  ghost predicate Checked(l: Ledger, scanStart: nat, headers: seq<BlockHeader>, es: seq<OrderedEvent>, headerOf: Hash -> BlockHeader) {
    && headers != [] && ConsecutiveHeaders(headers, scanStart + |l.canon|) && LinkedHeaders(headers)
    && (l.canon != [] ==> headers[0].parentHash == l.canon[|l.canon| - 1])
    && (forall i :: 0 <= i < |headers| ==> headerOf(headers[i].hash) == headers[i])
    && EventsMatchHeaders(headers, scanStart + |l.canon|, es)
    && NotDescending(es, EventBefore) && DistinctKeys(es)
  }

  lemma BatchCommits(db: Db, l: Ledger, scanStart: nat, logs: seq<BlockLog>, allow: bool)
    requires Represents(db, l, scanStart) && logs != [] && NextBatch(l, scanStart, logs)
    ensures var r := CommitBatch(db, allow, logs);
            && (r.Success? <==>
                  (db.status.RecoveryRequired? ==> allow) && SameContent(l, logs) && Replay(db.tables, AllEvents(logs)).Success?)
            && (r.Success? ==>
              && Committed(db, l, scanStart, logs, r.value)
              && r.value.status == db.status && (db.status.RecoveryRequired? ==> allow))
  {
    hide BlocksRepresent, EventsRepresent, SameContent, Replay, CommitTransaction, Extend, CommitsTo;
    if CommitBatch(db, allow, logs).Success? {
      CommitAllowed(db, allow, logs);
    }
    CommitExtendsLedger(db, l, scanStart, logs, allow);
    assert CommitBatch(db, allow, logs).Success? ==> SameContract(db, CommitBatch(db, allow, logs).value) by {
      CommitKeepsContract(db, allow, logs);
    }
  }

  /** A checked range commits as a next batch, or not at all. */
  lemma CheckedRangeCommits(db: Db, l: Ledger, scanStart: nat, headers: seq<BlockHeader>, es: seq<OrderedEvent>,
                            logs: seq<BlockLog>, headerOf: Hash -> BlockHeader, allow: bool)
    requires Represents(db, l, scanStart) && HeadersKnown(l, headerOf) && Checked(l, scanStart, headers, es, headerOf)
    requires logs == Split(headers, es)
    ensures Headers(logs) == headers && HeadersKnown(Extend(l, logs), headerOf)
    ensures var r := CommitTransaction(db, allow, db.logScope, headers, es, headers[|headers| - 1]);
            && (r.Success? <==>
                  (db.status.RecoveryRequired? ==> allow) && SameContent(l, logs) && Replay(db.tables, AllEvents(logs)).Success?)
            && (r.Success? ==>
                  && Committed(db, l, scanStart, logs, r.value)
                  && r.value.status == db.status && (db.status.RecoveryRequired? ==> allow))
  {
    CheckedRangeIsNextBatch(l, scanStart, headers, es, headerOf);
    assert CommitTransaction(db, allow, db.logScope, headers, es, headers[|headers| - 1]) == CommitBatch(db, allow, logs);
    BatchCommits(db, l, scanStart, logs, allow);
  }

  /** A range of a steady chain, next after the canonical history. */
  ghost predicate FromChain(f: Chain, l: Ledger, scanStart: nat, range: Range) {
    && (forall n: nat :: LinkedAt(f, n)) && OnChain(l, f, scanStart)
    && range.headers != [] && Stretch(f, range.headers, scanStart + |l.canon|) && LogsMatch(range.headers, range.events)
    && scanStart + |l.canon| + |range.headers| - 1 <= f.head
  }

  /** It passes every check. */
  lemma FromChainPasses(f: Chain, l: Ledger, scanStart: nat, range: Range)
    requires FromChain(f, l, scanStart, range)
    ensures l.canon != [] ==> range.headers[0].parentHash == l.canon[|l.canon| - 1]
    ensures ConsecutiveHeaders(range.headers, scanStart + |l.canon|)
    ensures LinkedHeaders(range.headers) && EventsMatchHeaders(range.headers, scanStart + |l.canon|, range.events)
    ensures var end := range.headers[|range.headers| - 1];
            end.number == scanStart + |l.canon| + |range.headers| - 1 <= f.head && f.block(end.number) == end
  {
    hide OnChain, Stretch, LogsMatch;
    StretchIsLinked(f, range.headers, scanStart + |l.canon|);
    MatchingLogs(range.headers, scanStart + |l.canon|, range.events);
    if l.canon != [] {
      TopOnChain(l, f, scanStart, |l.canon| - 1);
    }
    LastOfStretch(f, range.headers, scanStart + |l.canon|);
  }

  lemma LastOfStretch(f: Chain, headers: seq<BlockHeader>, from: nat)
    requires headers != [] && Stretch(f, headers, from) && ConsecutiveHeaders(headers, from)
    ensures headers[|headers| - 1].number == from + |headers| - 1 && f.block(from + |headers| - 1) == headers[|headers| - 1]
  {
  }

  /** Is the last block of a fetched range still on the chain? */
  method CheckAnchor(chain: ChainReader, store: Store, end: BlockHeader, ghost f: Chain) returns (error: Option<IngestError>)
    requires store.db.Valid()
    modifies chain, store.db
    ensures store.db.Valid() && StatusOnly(old(store.db.State()), store.db.State()) && chain.clock > old(chain.clock)
    ensures old(store.db.status).RecoveryRequired? ==> store.db.status.RecoveryRequired?
    ensures error.None? ==> store.db.State() == old(store.db.State())
    ensures match chain.blockAt(old(chain.clock), end.number)
            case Success(block) => if block.hash == end.hash then error.None? else Raised(error, store.db.State(), "RANGE_ANCHOR_CHANGED")
            case Failure(cause) => error == Some(ReadChain("range anchor", cause)) && store.db.State() == old(store.db.State())
    ensures old(chain.Responsive(f)) ==> chain.Responsive(f)
    ensures old(chain.Responsive(f)) && end.number <= f.head && f.block(end.number) == end ==> error.None?
  {
    hide ChainReader.ResponsiveFrom;
    chain.SteadyAnswers(f, chain.clock, chain.clock, end.number);
    chain.StaysResponsive(f, chain.clock, chain.clock + 1);
    var anchor := chain.GetBlock(end.number);
    if anchor.Failure? {
      return Some(ReadChain("range anchor", anchor.error));
    }
    if anchor.value.hash != end.hash {
      store.MarkRecoveryRequired("RANGE_ANCHOR_CHANGED");
      return Some(RecoveryNeeded("range anchor changed"));
    }
    return None;
  }

  /** Checks a fetched range and re-reads its last block. */
  method CheckRange(chain: ChainReader, store: Store, checkpoint: Option<BlockHeader>, from: nat, range: Range,
                    ghost headerOf: Hash -> BlockHeader, ghost l: Ledger, ghost f: Chain)
    returns (error: Option<IngestError>)
    requires store.db.Valid() && from == store.db.scanStart + |l.canon|
    requires if l.canon == [] then checkpoint == None else checkpoint.Some? && checkpoint.value.hash == l.canon[|l.canon| - 1]
    requires range.headers != [] && ConsecutiveHeaders(range.headers, from)
    requires forall h <- range.headers :: headerOf(h.hash) == h
    requires NotDescending(range.events, EventBefore) && DistinctKeys(range.events)
    modifies chain, store.db
    ensures store.db.Valid() && StatusOnly(old(store.db.State()), store.db.State())
    ensures old(store.db.status).RecoveryRequired? ==> store.db.status.RecoveryRequired?
    ensures chain.clock >= old(chain.clock)
    ensures error.None? ==>
              && store.db.State() == old(store.db.State())
              && Checked(l, store.db.scanStart, range.headers, range.events, headerOf)
    ensures checkpoint.Some? && range.headers[0].parentHash != checkpoint.value.hash ==>
              Raised(error, store.db.State(), "CHECKPOINT_PARENT_DISCONTINUITY")
    ensures Continues(checkpoint, range) && !LinkedHeaders(range.headers) ==> Raised(error, store.db.State(), "PARENT_DISCONTINUITY")
    ensures Continues(checkpoint, range) && LinkedHeaders(range.headers) && !EventsMatchHeaders(range.headers, from, range.events) ==>
              Raised(error, store.db.State(), "LOG_BLOCK_HASH_MISMATCH")
    ensures Announced(error, store.db.State())
    ensures Continues(checkpoint, range) && LinkedHeaders(range.headers) && EventsMatchHeaders(range.headers, from, range.events) ==>
              var end := range.headers[|range.headers| - 1];
              match chain.blockAt(old(chain.clock), end.number)
              case Success(block) => if block.hash == end.hash then error.None? else Raised(error, store.db.State(), "RANGE_ANCHOR_CHANGED")
              case Failure(cause) => error == Some(ReadChain("range anchor", cause)) && store.db.State() == old(store.db.State())
    ensures old(chain.Responsive(f)) ==> chain.Responsive(f)
    ensures old(chain.Responsive(f)) && FromChain(f, l, store.db.scanStart, range) ==> error.None?
  {
    hide ChainReader.ResponsiveFrom, FromChain, OnChain, Stretch, LogsMatch, EventsMatchHeaders, LinkedHeaders, ConsecutiveHeaders,
         NotDescending, DistinctKeys;
    if FromChain(f, l, store.db.scanStart, range) {
      FromChainPasses(f, l, store.db.scanStart, range);
    }
    var problem := FindDiscontinuity(checkpoint, from, range);
    if problem.Some? {
      store.MarkRecoveryRequired(problem.value);
      return Some(RecoveryNeeded(problem.value));
    }
    forall i | 0 <= i < |range.headers| ensures headerOf(range.headers[i].hash) == range.headers[i] {
      assert range.headers[i] in range.headers;
    }
    error := CheckAnchor(chain, store, range.headers[|range.headers| - 1], f);
  }

  /** Sorts, checks and commits a fetched range. */
  method CommitRange(chain: ChainReader, store: Store, checkpoint: Option<BlockHeader>, from: nat, range: Range,
                     ghost since: nat, ghost headerOf: Hash -> BlockHeader, ghost l: Ledger, ghost f: Chain)
    returns (error: Option<IngestError>, ghost logs: seq<BlockLog>)
    requires chain.Sane(headerOf) && store.db.Valid() && store.logScope == store.db.logScope
    requires Represents(store.db.State(), l, store.db.scanStart) && HeadersKnown(l, headerOf)
    requires from == store.db.scanStart + |l.canon|
    requires if l.canon == [] then checkpoint == None else checkpoint.Some? && checkpoint.value.hash == l.canon[|l.canon| - 1]
    requires range.headers != [] && ConsecutiveHeaders(range.headers, from)
    requires AllReported(chain, range.headers, headerOf, since, chain.clock)
    requires Fetched(chain, range, since, chain.clock)
    modifies chain, store.db
    ensures store.db.Valid() && chain.clock >= old(chain.clock)
    ensures Passed(old(store.db.State()), l, store.db.scanStart, logs, store.db.State())
    ensures Announced(error, store.db.State())
    ensures error.None? <==> logs != []
    ensures logs != [] ==>
              && Headers(logs) == range.headers && FetchedBatch(chain, logs, since, chain.clock)
              && HeadersKnown(Extend(l, logs), headerOf)
    ensures old(store.db.status).RecoveryRequired? ==>
              store.db.status.RecoveryRequired? && (!store.allowReindexRecovery ==> logs == [])
    ensures error.None? && store.db.status.RecoveryRequired? ==> old(store.db.status).RecoveryRequired?
    ensures old(chain.Responsive(f)) ==> chain.Responsive(f)
    ensures old(chain.Responsive(f)) && FromChain(f, l, store.db.scanStart, range)
            && Smooth(chain, old(store.db.State()), l, store.db.scanStart, store.allowReindexRecovery, f) ==>
              error.None? && logs == ChainLogs(f, from, |range.headers|)
  {
    hide Represents, HeadersKnown, Passed, FetchedBatch, Fetched, FromChain, Smooth, Checked, CommitTransaction, SameContent,
         ChainReader.Responsive, ChainReader.Sane, DistinctKeys, NotDescending, Committed, ConsecutiveHeaders, Replay,
         AllEvents, SortEvents, StatusOnly, OnChain, ChainLogs, Announced, Raised, Continues, Extend, EventsMatchHeaders, LinkedHeaders,
         LogsMatch, Stretch, Split, Headers, ChainReader.Reported;
    logs := [];
    ghost var before := store.db.State();
    var ordered := SortEvents(range.events);
    ghost var fetchedBy := chain.clock;
    FetchedDistinct(chain, range, since, fetchedBy, headerOf);
    SortIsOrdered(range.events);
    SortKeepsDistinctKeys(range.events);
    ghost var smooth := chain.Responsive(f) && FromChain(f, l, store.db.scanStart, range)
                        && Smooth(chain, before, l, store.db.scanStart, store.allowReindexRecovery, f);
    if smooth {
      SortedFromChain(f, l, store.db.scanStart, range);
      SmoothCommit(chain, before, l, store.db.scanStart, store.allowReindexRecovery, f, range, since, fetchedBy);
    }
    error := CheckRange(chain, store, checkpoint, from, Range(range.headers, ordered), headerOf, l, f);
    StatusOnlyPasses(before, l, store.db.scanStart, store.db.State());
    if error.Some? {
      return;
    }
    ghost var batch := Split(range.headers, ordered);
    error := StoreRange(store, range.headers, ordered, headerOf, l);
    if error.Some? {
      return;
    }
    SplitIsFetched(chain, range, batch, headerOf, since, fetchedBy);
    FetchedWithin(chain, batch, since, fetchedBy, since, chain.clock);
    return None, batch;
  }

  /** The commit itself: all of a checked range, or nothing. */
  method StoreRange(store: Store, headers: seq<BlockHeader>, ordered: seq<OrderedEvent>, ghost headerOf: Hash -> BlockHeader, ghost l: Ledger)
    returns (error: Option<IngestError>)
    requires store.db.Valid() && store.logScope == store.db.logScope
    requires Represents(store.db.State(), l, store.db.scanStart) && HeadersKnown(l, headerOf)
    requires Checked(l, store.db.scanStart, headers, ordered, headerOf)
    modifies store.db
    ensures store.db.Valid()
    ensures Stored(old(store.db.State()), l, store.db.scanStart, Split(headers, ordered), store.allowReindexRecovery,
                   error.None?, store.db.State())
    ensures Headers(Split(headers, ordered)) == headers && HeadersKnown(Extend(l, Split(headers, ordered)), headerOf)
    ensures Announced(error, store.db.State())
  {
    hide Represents, HeadersKnown, JournalDatabase.Commit, Stored, Split, Extend, Headers;
    assert headers != [];
    hide Checked;
    ghost var before := store.db.State();
    var failed := store.Commit(headers, ordered, headers[|headers| - 1]);
    CommitStores(before, l, store.db.scanStart, headers, ordered, headerOf, store.allowReindexRecovery, store.db.State(), failed);
    return if failed.Some? then Some(StoreFailed(failed.value)) else None;
  }

  /** The batch is committed, or only the status differs; committed exactly when known blocks show the same logs, the
      projectors accept its events and no barrier stands in the way. A raised barrier stays, and a commit raises none. */
  ghost predicate Stored(a: Db, l: Ledger, scanStart: nat, logs: seq<BlockLog>, allow: bool, committed: bool, b: Db) {
    && logs != [] && Passed(a, l, scanStart, if committed then logs else [], b)
    && (committed <==>
          (a.status.RecoveryRequired? ==> allow) && SameContent(l, logs) && Replay(a.tables, AllEvents(logs)).Success?)
    && (a.status.RecoveryRequired? ==> b.status.RecoveryRequired?)
    && (committed && b.status.RecoveryRequired? ==> a.status.RecoveryRequired?)
  }

  lemma CommitStores(before: Db, l: Ledger, scanStart: nat, headers: seq<BlockHeader>, es: seq<OrderedEvent>,
                     headerOf: Hash -> BlockHeader, allow: bool, after: Db, failed: Option<StoreError>)
    requires Represents(before, l, scanStart) && HeadersKnown(l, headerOf) && Checked(l, scanStart, headers, es, headerOf)
    requires Outcome(after, failed) == JournalDatabase.Commit(before, allow, before.logScope, headers, es, headers[|headers| - 1])
    ensures Stored(before, l, scanStart, Split(headers, es), allow, failed.None?, after)
    ensures Headers(Split(headers, es)) == headers && HeadersKnown(Extend(l, Split(headers, es)), headerOf)
  {
    hide Represents, HeadersKnown, CommitTransaction, SameContent, Replay, AllEvents, Committed, Split, Extend;
    var logs := Split(headers, es);
    CheckedRangeCommits(before, l, scanStart, headers, es, logs, headerOf, allow);
    if failed.None? {
      CommittedPasses(before, l, scanStart, logs, after);
    }
  }

  lemma FetchedDistinct(chain: ChainReader, range: Range, lo: nat, hi: nat, headerOf: Hash -> BlockHeader)
    requires chain.Sane(headerOf) && Fetched(chain, range, lo, hi)
    ensures DistinctKeys(range.events)
  {
  }

  lemma CommittedPasses(a: Db, l: Ledger, scanStart: nat, logs: seq<BlockLog>, b: Db)
    requires Committed(a, l, scanStart, logs, b)
    ensures Passed(a, l, scanStart, logs, b) && logs != []
  {
  }

  /** Nothing stands in the way of the chain's next blocks. */
  ghost predicate Smooth(chain: ChainReader, db: Db, l: Ledger, scanStart: nat, allow: bool, f: Chain) {
    && Agrees(db, l, scanStart) && OnChain(l, f, scanStart) && ChainAccepted(f, scanStart) && LogsFixed(chain, f.eventsOf)
    && (db.status.RecoveryRequired? ==> allow)
  }

  lemma SortedFromChain(f: Chain, l: Ledger, scanStart: nat, range: Range)
    requires FromChain(f, l, scanStart, range)
    ensures FromChain(f, l, scanStart, Range(range.headers, SortEvents(range.events)))
  {
    forall e | e in SortEvents(range.events) ensures e in range.events {
      SortKeepsMembers(range.events, e);
    }
  }

  /** A fetched range of the chain is acceptable as the chain's next blocks. */
  lemma SmoothCommit(chain: ChainReader, db: Db, l: Ledger, scanStart: nat, allow: bool, f: Chain, range: Range, lo: nat, hi: nat)
    requires FromChain(f, l, scanStart, range) && Smooth(chain, db, l, scanStart, allow, f) && Fetched(chain, range, lo, hi)
    ensures var logs := Split(range.headers, SortEvents(range.events));
            && logs == ChainLogs(f, scanStart + |l.canon|, |range.headers|)
            && SameContent(l, logs) && Replay(db.tables, AllEvents(logs)).Success? && (db.status.RecoveryRequired? ==> allow)
  {
    hide Agrees, OnChain, ChainAccepted, SameContent, LogsMatch, ChainLogs, AllEvents, Replay, AtHeight, SortEvents;
    var t :| chain.logsAt(t, range.headers) == Success(range.events);
    SplitIsChain(f, range.headers, scanStart + |l.canon|, SortEvents(range.events));
    NextAccepted(db, l, f, scanStart, |range.headers|);
  }

  lemma SplitIsFetched(chain: ChainReader, range: Range, batch: seq<BlockLog>, headerOf: Hash -> BlockHeader, lo: nat, hi: nat)
    requires batch == Split(range.headers, SortEvents(range.events)) && Headers(batch) == range.headers
    requires Fetched(chain, range, lo, hi) && AllReported(chain, range.headers, headerOf, lo, hi)
    ensures FetchedBatch(chain, batch, lo, hi)
  {
    var t :| lo <= t < hi && chain.logsAt(t, range.headers) == Success(range.events);
    assert LogsFetchedAt(chain, t, batch);
    forall log <- batch ensures chain.Reported(log.header, lo, hi) {
      var i :| 0 <= i < |batch| && batch[i] == log;
      assert range.headers[i] in range.headers;
    }
  }

  /** The checkpoint's header is that of the last canonical block. */
  lemma CheckpointHeader(db: Db, l: Ledger, scanStart: nat)
    requires Represents(db, l, scanStart)
    ensures db.checkpoint.Some? ==>
              var cp := db.checkpoint.value;
              && l.canon != [] && cp.hash == l.canon[|l.canon| - 1] && cp.number == scanStart + |l.canon| - 1
              && HasCanonicalBlock(db, cp.number, cp.hash)
    ensures db.checkpoint.None? ==> l.canon == []
  {
    if db.checkpoint.Some? {
      assert l.canon[|l.canon| - 1] in l.canon;
    }
  }

  datatype Plan =
    | Stop(error: Option<IngestError>)
    | Fetch(checkpoint: Option<BlockHeader>, from: nat, last: nat, eligible: nat)

  function Target(config: Config, eligible: nat): (t: nat)
    ensures t <= eligible
  {
    if config.maximumTarget.Some? && config.maximumTarget.value < eligible then config.maximumTarget.value else eligible
  }

  /** The settings are usable and a height is still to be fetched from a steady chain. */
  predicate Within(config: Config, f: Chain, from: nat) {
    && config.batchSize >= 1 && TargetReadable(config.finality, config.depth) && f.finalized <= f.head
    && EligibleHeight(f, config.finality, config.depth).Some?
    && from <= Target(config, EligibleHeight(f, config.finality, config.depth).value)
  }

  /** A height at or below the target set by an eligible height that was read between two moments. */
  ghost predicate BelowEligible(chain: ChainReader, config: Config, number: nat, lo: nat, hi: nat) {
    exists n :: WasEligible(chain, config.finality, config.depth, n, lo, hi) && number <= Target(config, n)
  }

  /** Between two moments an eligible height was read first, and then a batch that ends within its target. */
  ghost predicate PlannedThenFetched(chain: ChainReader, config: Config, logs: seq<BlockLog>, lo: nat, hi: nat)
    requires logs != []
  {
    exists planned ::
      && lo <= planned <= hi && BelowEligible(chain, config, EndOf(logs).number, lo, planned)
      && FetchedBatch(chain, logs, planned, hi)
  }

  lemma FetchedAsPlanned(chain: ChainReader, config: Config, logs: seq<BlockLog>, eligible: nat, lo: nat, planned: nat, hi: nat)
    requires logs != [] && lo <= planned <= hi && FetchedBatch(chain, logs, planned, hi)
    requires WasEligible(chain, config.finality, config.depth, eligible, lo, planned) && EndOf(logs).number <= Target(config, eligible)
    ensures PlannedThenFetched(chain, config, logs, lo, hi)
  {
    hide FetchedBatch, WasEligible;
    assert BelowEligible(chain, config, EndOf(logs).number, lo, planned);
  }

  lemma FetchedInPass(chain: ChainReader, config: Config, logs: seq<BlockLog>, lo: nat, hi: nat)
    requires logs != [] && PlannedThenFetched(chain, config, logs, lo, hi)
    ensures FetchedBatch(chain, logs, lo, hi)
    ensures config.maximumTarget.Some? ==> EndOf(logs).number <= config.maximumTarget.value
  {
    hide FetchedBatch, WasEligible;
    var planned :| lo <= planned <= hi && BelowEligible(chain, config, EndOf(logs).number, lo, planned) && FetchedBatch(chain, logs, planned, hi);
    FetchedWithin(chain, logs, planned, hi, lo, hi);
  }

  datatype Tip = NoTip(error: IngestError) | Tip(checkpoint: Option<BlockHeader>, eligible: Option<nat>)

  /** Reads the checkpoint and checks it against the chain. */
  method ReadStart(chain: ChainReader, store: Store, finality: Finality, ghost l: Ledger, ghost f: Chain)
    returns (r: Result<Option<BlockHeader>, IngestError>)
    requires store.db.Valid() && Represents(store.db.State(), l, store.db.scanStart)
    modifies chain, store.db
    ensures store.db.Valid() && StatusOnly(old(store.db.State()), store.db.State()) && chain.clock >= old(chain.clock)
    ensures old(store.db.status).RecoveryRequired? ==> store.db.status.RecoveryRequired?
    ensures r.Failure? ==> Announced(Some(r.error), store.db.State())
    ensures r.Success? ==>
              && store.db.State() == old(store.db.State())
              && if l.canon == [] then r.value == None
                 else r.value.Some? && r.value.value.hash == l.canon[|l.canon| - 1]
                      && r.value.value.number == store.db.scanStart + |l.canon| - 1
    ensures old(chain.Responsive(f)) ==> chain.Responsive(f)
    ensures old(chain.Responsive(f)) && OnChain(l, f, store.db.scanStart) && store.db.scanStart + |l.canon| - 1 <= f.head ==> r.Success?
  {
    hide Represents, OnChain, ChainReader.Responsive;
    CheckpointHeader(store.db.State(), l, store.db.scanStart);
    var read := store.ReadCheckpoint();
    if read.Failure? {
      return Failure(StoreFailed(CheckpointBlockMissing));
    }
    if l.canon != [] && OnChain(l, f, store.db.scanStart) {
      TopOnChain(l, f, store.db.scanStart, |l.canon| - 1);
    }
    if read.value.Some? {
      var error := CheckCheckpoint(chain, store, read.value.value, finality, f);
      if error.Some? {
        return Failure(error.value);
      }
    }
    return Success(read.value);
  }

  /** Reads the checkpoint, checks it against the chain, and reads the eligible head. */
  method ReadTip(chain: ChainReader, store: Store, config: Config, ghost headerOf: Hash -> BlockHeader, ghost l: Ledger, ghost f: Chain)
    returns (tip: Tip)
    requires chain.Sane(headerOf) && store.db.Valid()
    requires Represents(store.db.State(), l, store.db.scanStart)
    modifies chain, store.db
    ensures store.db.Valid() && StatusOnly(old(store.db.State()), store.db.State())
    ensures old(store.db.status).RecoveryRequired? ==> store.db.status.RecoveryRequired?
    ensures tip.NoTip? ==> Announced(Some(tip.error), store.db.State())
    ensures chain.clock >= old(chain.clock)
    ensures tip.Tip? ==>
              && store.db.State() == JournalDatabase.Observe(old(store.db.State()))
              && (tip.eligible.Some? ==>
                    WasEligible(chain, config.finality, config.depth, tip.eligible.value, old(chain.clock), chain.clock))
              && if l.canon == [] then tip.checkpoint == None
                 else tip.checkpoint.Some? && tip.checkpoint.value.hash == l.canon[|l.canon| - 1]
                      && tip.checkpoint.value.number == store.db.scanStart + |l.canon| - 1
    ensures old(chain.Responsive(f)) ==> chain.Responsive(f)
    ensures old(chain.Responsive(f)) && OnChain(l, f, store.db.scanStart) && TargetReadable(config.finality, config.depth)
            && store.db.scanStart + |l.canon| - 1 <= f.head ==>
              tip.Tip? && tip.eligible == EligibleHeight(f, config.finality, config.depth)
  {
    hide Represents, WasEligible, OnChain, ChainReader.Responsive, ChainReader.Sane, LinkedAt;
    var start := ReadStart(chain, store, config.finality, l, f);
    if start.Failure? {
      return NoTip(start.error);
    }
    ghost var checkedBy := chain.clock;
    var observed := ReadTarget(chain, store, config.finality, config.depth, headerOf, f);
    if observed.Failure? {
      return NoTip(observed.error);
    }
    store.Observe();
    var head := observed.value.eligibleHead;
    if head.Some? {
      EligibleWithin(chain, config.finality, config.depth, head.value.number, checkedBy, chain.clock, old(chain.clock), chain.clock);
    }
    return Tip(start.value, if head.Some? then Some(head.value.number) else None);
  }

  /** The next range under the eligible head, or why there is none. */
  method Bound(store: Store, config: Config, tip: Tip) returns (plan: Plan)
    requires store.db.Valid() && tip.Tip? && config.batchSize >= 1
    modifies store.db
    ensures store.db.Valid() && StatusOnly(old(store.db.State()), store.db.State())
    ensures old(store.db.status).RecoveryRequired? ==> store.db.status.RecoveryRequired?
    ensures plan.Fetch? <==> tip.eligible.Some? && NextHeight(config, tip) <= Target(config, tip.eligible.value)
    ensures plan.Fetch? ==>
              && plan.checkpoint == tip.checkpoint && plan.eligible == tip.eligible.value
              && plan.from == NextHeight(config, tip) <= plan.last <= Target(config, plan.eligible)
              && plan.last - plan.from + 1 <= config.batchSize
              && store.db.State() == old(store.db.State())
    ensures plan.Stop? ==> Announced(plan.error, store.db.State())
    ensures plan.Stop? && plan.error.None? && store.db.status.RecoveryRequired? ==> old(store.db.status).RecoveryRequired?
    ensures tip.checkpoint.Some? && (tip.eligible.None? || tip.checkpoint.value.number > Target(config, tip.eligible.value)) ==>
              plan.Stop? && Raised(plan.error, store.db.State(), "CHECKPOINT_EXCEEDS_ELIGIBLE_TARGET")
  {
    var checkpoint := tip.checkpoint;
    if tip.eligible.None? {
      if checkpoint.Some? {
        store.MarkRecoveryRequired("CHECKPOINT_EXCEEDS_ELIGIBLE_TARGET");
        return Stop(Some(RecoveryNeeded("checkpoint exceeds eligible indexing target")));
      }
      return Stop(None);
    }
    var eligible := tip.eligible.value;
    var target := Target(config, eligible);
    var from := if checkpoint.Some? then checkpoint.value.number + 1 else config.startBlock;
    if checkpoint.Some? && checkpoint.value.number > target {
      store.MarkRecoveryRequired("CHECKPOINT_EXCEEDS_ELIGIBLE_TARGET");
      return Stop(Some(RecoveryNeeded("checkpoint exceeds eligible indexing target")));
    }
    if from > target {
      if target == eligible {
        store.MarkCurrent();
      }
      return Stop(None);
    }
    return Fetch(checkpoint, from, if from + config.batchSize - 1 < target then from + config.batchSize - 1 else target, eligible);
  }

  function NextHeight(config: Config, tip: Tip): nat
    requires tip.Tip?
  {
    if tip.checkpoint.Some? then tip.checkpoint.value.number + 1 else config.startBlock
  }

  /** Reads the checkpoint and the eligible head and bounds the next range. */
  method PlanRange(chain: ChainReader, store: Store, config: Config, ghost headerOf: Hash -> BlockHeader, ghost l: Ledger, ghost f: Chain)
    returns (plan: Plan)
    requires chain.Sane(headerOf) && store.db.Valid()
    requires Represents(store.db.State(), l, store.db.scanStart)
    requires config.startBlock == store.db.scanStart
    modifies chain, store.db
    ensures store.db.Valid() && StatusOnly(old(store.db.State()), store.db.State())
    ensures old(store.db.status).RecoveryRequired? ==> store.db.status.RecoveryRequired?
    ensures chain.clock >= old(chain.clock)
    ensures plan.Fetch? ==>
              && plan.from == store.db.scanStart + |l.canon| <= plan.last <= Target(config, plan.eligible)
              && plan.last - plan.from + 1 <= config.batchSize
              && WasEligible(chain, config.finality, config.depth, plan.eligible, old(chain.clock), chain.clock)
              && if l.canon == [] then plan.checkpoint == None
                 else plan.checkpoint.Some? && plan.checkpoint.value.hash == l.canon[|l.canon| - 1]
    ensures old(chain.Responsive(f)) ==> chain.Responsive(f)
    ensures old(chain.Responsive(f)) && OnChain(l, f, store.db.scanStart) && Within(config, f, store.db.scanStart + |l.canon|) ==>
              plan.Fetch? && plan.last <= f.head
    ensures (plan.Fetch? || plan.error.None?) && store.db.status.RecoveryRequired? ==> old(store.db.status).RecoveryRequired?
    ensures plan.Stop? ==> Announced(plan.error, store.db.State())
  {
    hide Represents, WasEligible, OnChain, ChainReader.Responsive, ChainReader.Sane, LinkedAt, Raised, Target;
    if config.batchSize < 1 {
      return Stop(Some(IndexBatchSizeInvalid));
    }
    if config.depth < 0 {
      return Stop(Some(IndexingDepthInvalid));
    }
    var tip := ReadTip(chain, store, config, headerOf, l, f);
    if tip.NoTip? {
      return Stop(Some(tip.error));
    }
    plan := Bound(store, config, tip);
  }

  /** After a commit that reached the eligible head: current only if the head is still that block. */
  method ConfirmCurrent(chain: ChainReader, store: Store, config: Config, end: BlockHeader, ghost headerOf: Hash -> BlockHeader, ghost f: Chain)
    returns (error: Option<IngestError>)
    requires chain.Sane(headerOf) && store.db.Valid()
    modifies chain, store.db
    ensures store.db.Valid() && StatusOnly(old(store.db.State()), store.db.State())
    ensures old(store.db.status).RecoveryRequired? ==> store.db.status.RecoveryRequired?
    ensures error.None? && store.db.status.RecoveryRequired? ==> old(store.db.status).RecoveryRequired?
    ensures old(chain.Responsive(f)) ==> chain.Responsive(f)
    ensures old(chain.Responsive(f)) && TargetReadable(config.finality, config.depth) ==> error.None?
    ensures Announced(error, store.db.State()) && chain.clock >= old(chain.clock)
  {
    var latest := ReadTarget(chain, store, config.finality, config.depth, headerOf, f);
    if latest.Failure? {
      return Some(latest.error);
    }
    var head := latest.value.eligibleHead;
    if head.Some? && head.value.number == end.number && head.value.hash == end.hash {
      store.MarkCurrent();
    }
    return None;
  }

  lemma EndOfRange(logs: seq<BlockLog>, headers: seq<BlockHeader>, from: nat)
    requires logs != [] && Headers(logs) == headers && ConsecutiveHeaders(headers, from)
    ensures |logs| == |headers| && logs[|logs| - 1].header == headers[|headers| - 1]
    ensures headers[|headers| - 1].number == from + |headers| - 1
  {
    assert Headers(logs)[|logs| - 1] == logs[|logs| - 1].header;
  }

  /** Fetches a planned range, as much of it as the provider allows, and commits it. */
  method FetchAndCommit(chain: ChainReader, store: Store, checkpoint: Option<BlockHeader>, from: nat, last: nat,
                        ghost headerOf: Hash -> BlockHeader, ghost l: Ledger, ghost f: Chain)
    returns (error: Option<IngestError>, end: BlockHeader, ghost logs: seq<BlockLog>)
    requires chain.Sane(headerOf) && store.db.Valid() && store.logScope == store.db.logScope
    requires Represents(store.db.State(), l, store.db.scanStart) && HeadersKnown(l, headerOf)
    requires from == store.db.scanStart + |l.canon| <= last
    requires if l.canon == [] then checkpoint == None else checkpoint.Some? && checkpoint.value.hash == l.canon[|l.canon| - 1]
    modifies chain, store.db
    ensures store.db.Valid()
    ensures Passed(old(store.db.State()), l, store.db.scanStart, logs, store.db.State())
    ensures Announced(error, store.db.State())
    ensures error.None? <==> logs != []
    ensures chain.clock >= old(chain.clock)
    ensures logs != [] ==>
              && FetchedBatch(chain, logs, old(chain.clock), chain.clock) && HeadersKnown(Extend(l, logs), headerOf)
              && |logs| <= last - from + 1 && end == logs[|logs| - 1].header && end.number <= last
    ensures old(store.db.status).RecoveryRequired? ==>
              store.db.status.RecoveryRequired? && (!store.allowReindexRecovery ==> logs == [])
    ensures error.None? && store.db.status.RecoveryRequired? ==> old(store.db.status).RecoveryRequired?
    ensures old(chain.Responsive(f)) ==> chain.Responsive(f)
    ensures old(chain.Responsive(f)) && last <= f.head
            && Smooth(chain, old(store.db.State()), l, store.db.scanStart, store.allowReindexRecovery, f) ==>
              error.None? && logs == ChainLogs(f, from, |logs|)
  {
    hide Represents, FetchedBatch, Passed, HeadersKnown, Fetched, Extend, Smooth, FromChain, OnChain, ChainReader.Responsive,
         ChainReader.Sane, ChainReader.Reported, LogsMatch, Stretch, ChainLogs, ConsecutiveHeaders, Headers, BlockRefused, RefusedSingly;
    logs, end := [], BlockHeader(0, "", "", 0);
    ghost var before := store.db.State();
    var range := FetchRange(chain, from, last, headerOf, f);
    StatusOnlyPasses(before, l, store.db.scanStart, before);
    if range.Failure? {
      return Some(range.error), end, [];
    }
    if old(chain.Responsive(f)) && last <= f.head && Smooth(chain, before, l, store.db.scanStart, store.allowReindexRecovery, f) {
      SmoothIsSteady(chain, before, l, store.db.scanStart, store.allowReindexRecovery, f);
      RangeFromChain(chain, f, l, store.db.scanStart, range.value, last);
    }
    error, logs := CommitRange(chain, store, checkpoint, from, range.value, old(chain.clock), headerOf, l, f);
    end := range.value.headers[|range.value.headers| - 1];
    if logs != [] {
      EndOfRange(logs, range.value.headers, from);
    }
  }

  lemma SmoothIsSteady(chain: ChainReader, db: Db, l: Ledger, scanStart: nat, allow: bool, f: Chain)
    requires Smooth(chain, db, l, scanStart, allow, f)
    ensures OnChain(l, f, scanStart)
  {
  }

  /** Fetches and commits a planned range; when that reached the eligible head, asks whether the index is current. */
  method FetchAndConfirm(chain: ChainReader, store: Store, config: Config, plan: Plan, ghost headerOf: Hash -> BlockHeader,
                         ghost l: Ledger, ghost f: Chain)
    returns (error: Option<IngestError>, ghost logs: seq<BlockLog>)
    requires chain.Sane(headerOf) && store.db.Valid() && store.logScope == store.db.logScope
    requires Represents(store.db.State(), l, store.db.scanStart) && HeadersKnown(l, headerOf)
    requires plan.Fetch? && plan.from == store.db.scanStart + |l.canon| <= plan.last
    requires if l.canon == [] then plan.checkpoint == None
             else plan.checkpoint.Some? && plan.checkpoint.value.hash == l.canon[|l.canon| - 1]
    modifies chain, store.db
    ensures store.db.Valid() && chain.clock >= old(chain.clock)
    ensures Passed(old(store.db.State()), l, store.db.scanStart, logs, store.db.State())
    ensures Announced(error, store.db.State())
    ensures error.None? ==> logs != []
    ensures logs != [] ==>
              && FetchedBatch(chain, logs, old(chain.clock), chain.clock) && HeadersKnown(Extend(l, logs), headerOf)
              && |logs| <= plan.last - plan.from + 1 && EndOf(logs).number <= plan.last
    ensures old(store.db.status).RecoveryRequired? ==>
              store.db.status.RecoveryRequired? && (!store.allowReindexRecovery ==> logs == [])
    ensures error.None? && store.db.status.RecoveryRequired? ==> old(store.db.status).RecoveryRequired?
    ensures old(chain.Responsive(f)) ==> chain.Responsive(f)
    ensures old(chain.Responsive(f)) && plan.last <= f.head && TargetReadable(config.finality, config.depth)
            && Smooth(chain, old(store.db.State()), l, store.db.scanStart, store.allowReindexRecovery, f) ==>
              error.None? && logs == ChainLogs(f, plan.from, |logs|)
  {
    hide Represents, FetchedBatch, Passed, HeadersKnown, Extend, Smooth, ChainReader.Responsive, ChainReader.Sane, ChainLogs, TargetReadable;
    ghost var before := store.db.State();
    var end: BlockHeader;
    error, end, logs := FetchAndCommit(chain, store, plan.checkpoint, plan.from, plan.last, headerOf, l, f);
    if error.Some? {
      return;
    }
    ghost var committed, fetchedBy := store.db.State(), chain.clock;
    if end.number == plan.eligible {
      error := ConfirmCurrent(chain, store, config, end, headerOf, f);
      StatusAfterCommit(before, l, store.db.scanStart, logs, committed, store.db.State());
    }
    FetchedWithin(chain, logs, old(chain.clock), fetchedBy, old(chain.clock), chain.clock);
  }

  /** One pass. Whatever the reader answers, it changes the status alone or commits one next batch: it first reads an
      eligible height, and then headers and logs that end at or below that height and the maximum target. */
  method IngestRange(chain: ChainReader, store: Store, config: Config, ghost headerOf: Hash -> BlockHeader, ghost l: Ledger, ghost f: Chain)
    returns (error: Option<IngestError>, ghost logs: seq<BlockLog>)
    requires chain.Sane(headerOf) && store.db.Valid() && store.logScope == store.db.logScope
    requires Represents(store.db.State(), l, store.db.scanStart) && HeadersKnown(l, headerOf)
    requires config.startBlock == store.db.scanStart
    modifies chain, store.db
    ensures store.db.Valid()
    ensures Passed(old(store.db.State()), l, store.db.scanStart, logs, store.db.State())
    ensures Announced(error, store.db.State())
    ensures chain.clock >= old(chain.clock)
    ensures logs != [] ==>
              && HeadersKnown(Extend(l, logs), headerOf) && |logs| <= config.batchSize
              && PlannedThenFetched(chain, config, logs, old(chain.clock), chain.clock)
    ensures old(store.db.status).RecoveryRequired? ==>
              store.db.status.RecoveryRequired? && (!store.allowReindexRecovery ==> logs == [])
    ensures error.None? && store.db.status.RecoveryRequired? ==> old(store.db.status).RecoveryRequired?
    ensures old(chain.Responsive(f)) ==> chain.Responsive(f)
    ensures old(chain.Responsive(f)) && Within(config, f, store.db.scanStart + |l.canon|)
            && Smooth(chain, old(store.db.State()), l, store.db.scanStart, store.allowReindexRecovery, f) ==>
              error.None? && logs != [] && logs == ChainLogs(f, store.db.scanStart + |l.canon|, |logs|)
  {
    hide Represents, WasEligible, PlannedThenFetched, FetchedBatch, Passed, HeadersKnown, Extend, Target, Smooth, OnChain, Within,
         ChainReader.Responsive, ChainReader.Sane, ChainLogs, Announced, TargetReadable;
    logs := [];
    ghost var before := store.db.State();
    ghost var smooth := chain.Responsive(f) && Within(config, f, store.db.scanStart + |l.canon|)
                        && Smooth(chain, before, l, store.db.scanStart, store.allowReindexRecovery, f);
    if smooth {
      SmoothParts(chain, before, l, store.db.scanStart, store.allowReindexRecovery, f, config, before);
    }
    var plan := PlanRange(chain, store, config, headerOf, l, f);
    StatusOnlyPasses(before, l, store.db.scanStart, store.db.State());
    if plan.Stop? {
      return plan.error, [];
    }
    if smooth {
      SmoothParts(chain, before, l, store.db.scanStart, store.allowReindexRecovery, f, config, store.db.State());
    }
    ghost var planned, plannedBy := store.db.State(), chain.clock;
    StatusKeepsRepresents(before, planned, l, store.db.scanStart);
    error, logs := FetchAndConfirm(chain, store, config, plan, headerOf, l, f);
    StatusBeforeCommit(before, l, store.db.scanStart, logs, planned, store.db.State());
    if logs != [] {
      FetchedAsPlanned(chain, config, logs, plan.eligible, old(chain.clock), plannedBy, chain.clock);
    }
  }

  lemma SmoothParts(chain: ChainReader, a: Db, l: Ledger, scanStart: nat, allow: bool, f: Chain, config: Config, b: Db)
    requires Smooth(chain, a, l, scanStart, allow, f) && StatusOnly(a, b) && (b.status.RecoveryRequired? ==> a.status.RecoveryRequired?)
    requires Within(config, f, scanStart + |l.canon|)
    ensures OnChain(l, f, scanStart) && Smooth(chain, b, l, scanStart, allow, f) && TargetReadable(config.finality, config.depth)
  {
  }

  lemma RangeFromChain(chain: ChainReader, f: Chain, l: Ledger, scanStart: nat, range: Range, last: nat)
    requires chain.Responsive(f) && OnChain(l, f, scanStart) && last <= f.head
    requires range.headers != [] && Stretch(f, range.headers, scanStart + |l.canon|) && LogsMatch(range.headers, range.events)
    requires |range.headers| <= last - (scanStart + |l.canon|) + 1
    ensures FromChain(f, l, scanStart, range)
  {
  }
}
