/** The SQLite projection store: methods that insert, update and delete rows inside transactions.
    Each is proved against the value-level operation of JournalDatabase. */
module ProjectionStore {
  import opened Wrappers
  import opened Domain
  import opened Projectors
  import opened ProjectionTables
  import opened Listings
  import opened JournalDatabase

  /** The rows of one deployment. Valid() holds the table constraints the schema enforces. */
  class Database {
    var blocks: map<Hash, BlockRow>
    var events: map<EventKey, EventRow>
    var checkpoint: Option<Checkpoint>
    var sales: map<nat, SaleRow>
    var claims: map<nat, ClaimRow>
    var owners: map<TokenKey, OwnerRow>
    var projectorVersion: string
    var buildId: nat
    var logScope: string
    var status: Status
    var reason: Option<string>
    const scanStart: nat

    ghost predicate Valid()
      reads this
    {
      OneCanonicalPerHeight(blocks) && KeyedByColumns(events)
    }

    function State(): Db
      reads this
    {
      Db(blocks, events, checkpoint, Tables(sales, claims, owners), projectorVersion, buildId, logScope, status, reason)
    }

    /** A freshly registered deployment. */
    constructor (scanStart: nat, logScope: string)
      ensures Valid() && this.scanStart == scanStart
      ensures State() == Db(map[], map[], None, EMPTY_TABLES, PROJECTOR_VERSION, 0, logScope, Uninitialized, None)
    {
      this.scanStart := scanStart;
      blocks, events, checkpoint := map[], map[], None;
      sales, claims, owners := map[], map[], map[];
      projectorVersion, buildId, this.logScope := PROJECTOR_VERSION, 0, logScope;
      status, reason := Uninitialized, None;
    }

    /** ROLLBACK to the state a transaction began in. */
    method Rollback(before: Db)
      requires OneCanonicalPerHeight(before.blocks) && KeyedByColumns(before.events)
      modifies this
      ensures Valid() && State() == before
    {
      blocks, events, checkpoint := before.blocks, before.events, before.checkpoint;
      sales, claims, owners := before.tables.sales, before.tables.claims, before.tables.owners;
      projectorVersion, buildId, logScope := before.projectorVersion, before.buildId, before.logScope;
      status, reason := before.status, before.reason;
    }

    method SetStatus(s: Status, r: Option<string>)
      modifies this`status, this`reason
      ensures status == s && reason == r
    {
      status, reason := s, r;
    }
  }

  datatype OpenError = ProjectionContractMismatch | MaintenanceContractUnsupported

  class Store {
    const db: Database
    const logScope: string
    const allowReindexRecovery: bool
    const sourceScopeChanged: bool

    constructor (db: Database, logScope: string, allowReindexRecovery: bool, sourceScopeChanged: bool)
      ensures this.db == db && this.logScope == logScope
      ensures this.allowReindexRecovery == allowReindexRecovery && this.sourceScopeChanged == sourceScopeChanged
    {
      this.db, this.logScope := db, logScope;
      this.allowReindexRecovery, this.sourceScopeChanged := allowReindexRecovery, sourceScopeChanged;
    }

    /** A runtime store needs the current projector and scope; maintenance may accept others. */
    static method Open(db: Database, logScope: string, maintenance: bool, supportedVersions: set<string>,
                       allowLogScopeChange: bool, allowReindexRecovery: bool)
      returns (r: Result<Store, OpenError>)
      ensures r.Success? <==>
                && (db.projectorVersion == PROJECTOR_VERSION || (maintenance && db.projectorVersion in supportedVersions))
                && (db.logScope == logScope || (maintenance && allowLogScopeChange))
      ensures r.Failure? ==> r.error == if maintenance then MaintenanceContractUnsupported else ProjectionContractMismatch
      ensures r.Success? ==>
                && fresh(r.value) && r.value.db == db && r.value.logScope == logScope
                && (r.value.allowReindexRecovery <==> maintenance && allowReindexRecovery)
                && (r.value.sourceScopeChanged <==> db.logScope != logScope)
    {
      var projectorMatches := db.projectorVersion == PROJECTOR_VERSION || (maintenance && db.projectorVersion in supportedVersions);
      var scopeMatches := db.logScope == logScope || (maintenance && allowLogScopeChange);
      if !projectorMatches || !scopeMatches {
        return Failure(if maintenance then MaintenanceContractUnsupported else ProjectionContractMismatch);
      }
      var store := new Store(db, logScope, maintenance && allowReindexRecovery, db.logScope != logScope);
      return Success(store);
    }

    /** The last scanned header; its block row must be canonical and complete. */
    method ReadCheckpoint() returns (r: Result<Option<BlockHeader>, StoreError>)
      ensures db.checkpoint.None? <==> r == Success(None)
      ensures db.checkpoint.Some? ==>
                var cp := db.checkpoint.value;
                if cp.hash in db.blocks && db.blocks[cp.hash].canonical && db.blocks[cp.hash].scanComplete
                then r == Success(Some(BlockHeader(cp.number, cp.hash, db.blocks[cp.hash].parentHash, db.blocks[cp.hash].timestamp)))
                else r == Failure(CheckpointBlockMissing)
    {
      if db.checkpoint.None? {
        return Success(None);
      }
      var cp := db.checkpoint.value;
      if cp.hash !in db.blocks || !db.blocks[cp.hash].canonical || !db.blocks[cp.hash].scanComplete {
        return Failure(CheckpointBlockMissing);
      }
      var row := db.blocks[cp.hash];
      return Success(Some(BlockHeader(cp.number, cp.hash, row.parentHash, row.timestamp)));
    }

    // ---- status updates ----

    method MarkRecoveryRequired(reason: string)
      requires db.Valid()
      modifies db`status, db`reason
      ensures db.Valid() && db.State() == JournalDatabase.MarkRecoveryRequired(old(db.State()), reason)
    {
      db.SetStatus(RecoveryRequired, Some(reason));
    }

    method MarkStale(reason: string)
      requires db.Valid()
      modifies db`status, db`reason
      ensures db.Valid() && db.State() == JournalDatabase.MarkStale(old(db.State()), reason)
    {
      if !db.status.RecoveryRequired? {
        db.SetStatus(Stale, Some(reason));
      }
    }

    method Observe()
      requires db.Valid()
      modifies db`status, db`reason
      ensures db.Valid() && db.State() == JournalDatabase.Observe(old(db.State()))
    {
      if db.status.Uninitialized? || db.status.Stale? {
        db.SetStatus(Syncing, db.reason);
      }
    }

    method MarkCurrent()
      requires db.Valid()
      modifies db`status, db`reason
      ensures db.Valid() && db.State() == JournalDatabase.MarkCurrent(old(db.State()))
    {
      if db.status.Current? || db.status.Stale? || db.status.Syncing? {
        db.SetStatus(Current, None);
      }
    }

    method CompleteReindexRecovery(number: nat, hash: Hash) returns (error: Option<StoreError>)
      requires db.Valid()
      modifies db`status, db`reason
      ensures db.Valid()
      ensures Outcome(db.State(), error) == JournalDatabase.CompleteReindexRecovery(old(db.State()), allowReindexRecovery, number, hash)
    {
      if !allowReindexRecovery {
        return Some(ReindexMaintenanceRequired);
      }
      if db.checkpoint.None? || db.checkpoint.value.number < number || !HasCanonicalBlock(db.State(), number, hash) {
        return Some(ReindexCatchupIncomplete);
      }
      db.SetStatus(Syncing, None);
      return None;
    }

    // ---- commit ----

    /** Writes one event's effect to the tables; after an error the caller rolls back. */
    method ApplyEvent(e: OrderedEvent) returns (error: Option<ProjectionError>)
      requires db.Valid()
      modifies db`sales, db`claims, db`owners
      ensures db.Valid()
      ensures match ProjectionTables.ApplyEvent(old(db.State().tables), e)
              case Success(tables) => error == None && db.State().tables == tables
              case Failure(cause) => error == Some(cause)
    {
      if e.event.Transfer? {
        var key := TokenKey(e.envelope.contractAddress, e.event.tokenId);
        db.owners := db.owners[key := OwnerRow(e.event.to, RefOf(e), e.envelope.blockNumber)];
        return None;
      }
      var id := e.event.saleId;
      var claim := NextClaimRow(Lookup(db.claims, id), e);
      if claim.Failure? {
        return Some(claim.error);
      }
      if claim.value.Some? {
        db.claims := db.claims[id := claim.value.value];
      }
      var sale := NextSaleRow(Lookup(db.sales, id), e);
      if sale.Failure? {
        return Some(sale.error);
      }
      if sale.value.Some? {
        db.sales := db.sales[id := sale.value.value];
      }
      return None;
    }

    /** Inserts a journal row and applies it, or checks it against the row already there. */
    method RecordEvent(e: OrderedEvent, applyExisting: bool) returns (error: Option<StoreError>)
      requires db.Valid()
      modifies db`events, db`sales, db`claims, db`owners
      ensures db.Valid()
      ensures match JournalDatabase.RecordEvent(old(Journal(db.events, db.State().tables)), e, applyExisting)
              case Success(j) => error == None && Journal(db.events, db.State().tables) == j
              case Failure(cause) => error == Some(cause)
    {
      var key := KeyOf(e);
      if key in db.events {
        var row := db.events[key];
        if row.rawDigest != Digest(e.envelope) || row.decoded != e.event || row.decoderVersion != DECODER_VERSION
           || row.recordDigest != RowOf(e).recordDigest {
          return Some(EventIdentityContentMismatch);
        }
        if !applyExisting {
          return None;
        }
      } else {
        db.events := db.events[key := RowOf(e)];
      }
      var cause := ApplyEvent(e);
      return if cause.Some? then Some(ProjectionFailed(cause.value)) else None;
    }

    /** Inserts a block row, or checks it and makes it canonical again. */
    method StoreHeader(header: BlockHeader, logs: seq<Envelope>) returns (error: Option<StoreError>)
      requires db.Valid()
      modifies db`blocks
      ensures db.Valid()
      ensures match JournalDatabase.StoreHeader(old(db.blocks), header, logs, logScope)
              case Success(blocks) => error == None && db.blocks == blocks
              case Failure(cause) => error == Some(cause)
    {
      if header.hash in db.blocks {
        var row := db.blocks[header.hash];
        if row.logCount != |logs| || row.logDigest != Digest(logs) || row.logScope != logScope
           || row.parentHash != header.parentHash {
          return Some(CompletedBlockContentMismatch);
        }
        if !row.canonical {
          if HeightTaken(db.blocks, row.number, header.hash) {
            return Some(UniqueCanonicalHeight);
          }
          db.blocks := db.blocks[header.hash := row.(canonical := true, scanComplete := true)];
        }
      } else {
        if HeightTaken(db.blocks, header.number, header.hash) {
          return Some(UniqueCanonicalHeight);
        }
        db.blocks := db.blocks[header.hash :=
          BlockRow(header.number, header.parentHash, header.timestamp, true, true, logScope, |logs|, Digest(logs))];
      }
      return None;
    }

    /** The body of the commit transaction, up to the first error. */
    method WriteBatch(headers: seq<BlockHeader>, events: seq<OrderedEvent>, checkpoint: BlockHeader)
      returns (error: Option<StoreError>)
      requires db.Valid()
      modifies db
      ensures db.Valid()
      ensures match CommitTransaction(old(db.State()), allowReindexRecovery, logScope, headers, events, checkpoint)
              case Success(after) => error == None && db.State() == after
              case Failure(cause) => error == Some(cause)
    {
      hide KeyedByColumns, OneCanonicalPerHeight, JournalDatabase.StoreHeader, JournalDatabase.RecordEvent;
      if db.status.RecoveryRequired? && !allowReindexRecovery {
        return Some(ProjectionRecoveryRequired(db.reason));
      }
      ghost var before := db.State();
      var recanonicalized: set<Hash> := {};
      ghost var start := StoredHeaders(db.blocks, {});
      for i := 0 to |headers|
        invariant db.Valid() && db.State() == before.(blocks := db.blocks)
        invariant StoreHeaders(StoredHeaders(db.blocks, recanonicalized), headers[i..], events, logScope)
               == StoreHeaders(start, headers, events, logScope)
      {
        var header := headers[i];
        assert headers[i..][0] == header && headers[i..][1..] == headers[i + 1..];
        var again := Recanonicalizes(db.blocks, header);
        var cause := StoreHeader(header, ObservedLogs(events, header.number));
        if cause.Some? {
          return cause;
        }
        if again {
          recanonicalized := recanonicalized + {header.hash};
        }
      }
      ghost var journal := Journal(db.events, db.State().tables);
      ghost var stored := db.blocks;
      for i := 0 to |events|
        invariant db.Valid() && db.State() == before.(blocks := stored, events := db.events, tables := db.State().tables)
        invariant RecordEvents(Journal(db.events, db.State().tables), events[i..], recanonicalized)
               == RecordEvents(journal, events, recanonicalized)
      {
        var e := events[i];
        assert events[i..][0] == e && events[i..][1..] == events[i + 1..];
        var cause := RecordEvent(e, e.envelope.blockHash in recanonicalized);
        if cause.Some? {
          return cause;
        }
      }
      db.checkpoint := Some(Checkpoint(checkpoint.number, checkpoint.hash));
      return None;
    }

    method Commit(headers: seq<BlockHeader>, events: seq<OrderedEvent>, checkpoint: BlockHeader)
      returns (error: Option<StoreError>)
      requires db.Valid()
      modifies db
      ensures db.Valid()
      ensures Outcome(db.State(), error) ==
              JournalDatabase.Commit(old(db.State()), allowReindexRecovery, logScope, headers, events, checkpoint)
    {
      var before := db.State();
      error := WriteBatch(headers, events, checkpoint);
      if error.Some? {
        db.Rollback(before);
        if error.value.ProjectionFailed? && error.value.cause.Integrity? {
          db.SetStatus(RecoveryRequired, Some("PROJECTOR_INTEGRITY"));
        }
      }
    }

    // ---- rewinding and source refresh ----

    method FindPrevious(from: nat) returns (previous: Option<Checkpoint>)
      requires db.Valid()
      ensures PreviousCheckpoint(db.blocks, from, previous)
    {
      previous := None;
      var todo := db.blocks.Keys;
      while todo != {}
        invariant todo <= db.blocks.Keys
        invariant match previous
                  case None => forall h <- db.blocks.Keys - todo :: !Candidate(db.blocks, from, h)
                  case Some(cp) =>
                    && Candidate(db.blocks, from, cp.hash) && db.blocks[cp.hash].number == cp.number
                    && forall h <- db.blocks.Keys - todo :: Candidate(db.blocks, from, h) ==> db.blocks[h].number <= cp.number
      {
        var h :| h in todo;
        todo := todo - {h};
        if Candidate(db.blocks, from, h) && (previous.None? || previous.value.number < db.blocks[h].number) {
          previous := Some(Checkpoint(db.blocks[h].number, h));
        }
      }
    }

    method MarkReindexStarted(reason: string)
      requires db.Valid()
      modifies db`status, db`reason
      ensures db.Valid() && db.State() == ReindexStarted(old(db.State()), allowReindexRecovery, reason)
    {
      if !(allowReindexRecovery && db.status.RecoveryRequired?) {
        db.SetStatus(RebuildRequired, Some(reason));
      }
    }

    /** Marks blocks from a height on as orphaned and moves the checkpoint below them. */
    method RewindFrom(from: nat)
      requires db.Valid()
      modifies db
      ensures db.Valid()
      ensures exists previous ::
                && PreviousCheckpoint(Orphan(old(db.blocks), from), from, previous)
                && db.State() == Rewound(old(db.State()), allowReindexRecovery, from, previous)
    {
      db.blocks := Orphan(db.blocks, from);
      var previous := FindPrevious(from);
      db.checkpoint := previous;
      MarkReindexStarted("REINDEX_REQUESTED");
    }

    /** One block's rows ORDER BY transaction_index, log_index. */
    method QueryBlock(h: Hash) returns (q: seq<EventRow>)
      requires db.Valid()
      ensures ListsBlock(q, db.events, h)
    {
      var rows := set k <- db.events | k.blockHash == h :: db.events[k];
      q := OrderBy(rows, RowInBlockBefore);
      forall i, j | 0 <= i < j < |q| ensures LogBefore(q[i].envelope, q[j].envelope) {
        assert q[i] in q && q[j] in q;
        var a :| a in db.events && a.blockHash == h && db.events[a] == q[i];
        var b :| b in db.events && b.blockHash == h && db.events[b] == q[j];
        assert a != b && !RowInBlockBefore(q[j], q[i]);
      }
    }

    /** Canonical completed blocks up to a height ORDER BY block_number. */
    method QueryHeights(last: nat) returns (q: seq<Hash>)
      requires db.Valid()
      ensures ListsHeights(q, db.blocks, last)
    {
      var hashes := set h <- db.blocks | db.blocks[h].canonical && db.blocks[h].scanComplete && db.blocks[h].number <= last;
      q := OrderBy(hashes, LowerIn(db.blocks));
      forall i | 0 <= i < |q| ensures q[i] in hashes {
        assert q[i] in q;
      }
      forall i, j | 0 <= i < j < |q| ensures db.blocks[q[i]].number < db.blocks[q[j]].number {
        assert !LowerIn(db.blocks)(q[j], q[i]);
      }
    }

    /** The canonical journal ORDER BY block_number, transaction_index, log_index. */
    method QueryJournal() returns (q: seq<EventRow>)
      requires db.Valid()
      ensures ListsJournal(q, db.State())
    {
      var rows := set k <- db.events | CanonicalEvent(db.State(), k) :: db.events[k];
      q := OrderBy(rows, RowBefore);
    }

    /** hasSourceContentMismatch: stored rows against their digests, then blocks against what was observed. */
    method HasSourceContentMismatch() returns (mismatch: bool)
      requires db.Valid()
      ensures mismatch <==> SourceMismatch(db.State())
    {
      var state := db.State();
      if k :| k in db.events && !Intact(db.events[k]) {
        return true;
      }
      var todo := set h <- db.blocks | db.blocks[h].scanComplete;
      while todo != {}
        invariant forall h <- db.blocks :: db.blocks[h].scanComplete && h !in todo ==> !OverfullOrChanged(state, h)
        invariant forall h <- todo :: h in db.blocks && db.blocks[h].scanComplete
      {
        var h :| h in todo;
        todo := todo - {h};
        var q := QueryBlock(h);
        if BlockDiffers(db.blocks[h], q) {
          return true;
        }
        forall q' | ListsBlock(q', db.events, h) ensures q' == q {
          SortedListingIsUnique(q', q, RowInBlockBefore);
        }
      }
      return false;
    }

    method RequiresSourceRefresh() returns (refresh: bool)
      requires db.Valid()
      ensures refresh <==> sourceScopeChanged || SourceMismatch(db.State())
    {
      if sourceScopeChanged {
        return true;
      }
      refresh := HasSourceContentMismatch();
    }

    /** Rewinds, or deletes the whole source when it has to be fetched anew. */
    method PrepareForReindex(from: nat, archived: bool) returns (error: Option<StoreError>)
      requires db.Valid()
      modifies db
      ensures db.Valid()
      ensures if !(sourceScopeChanged || SourceMismatch(old(db.State()))) then
                error.None? && exists previous ::
                  && PreviousCheckpoint(Orphan(old(db.blocks), from), from, previous)
                  && db.State() == Rewound(old(db.State()), allowReindexRecovery, from, previous)
              else if !archived then error == Some(SourceRefreshArchiveRequired) && db.State() == old(db.State())
              else if db.scanStart != from then
                error == Some(SourceRefreshMustStartAtDeployment) && db.State() == old(db.State())
              else error.None? && db.State() == SourceDeleted(old(db.State()), allowReindexRecovery)
    {
      var refresh := RequiresSourceRefresh();
      if !refresh {
        RewindFrom(from);
        return None;
      }
      if !archived {
        return Some(SourceRefreshArchiveRequired);
      }
      if db.scanStart != from {
        return Some(SourceRefreshMustStartAtDeployment);
      }
      db.events := map[];
      db.blocks := map[];
      db.checkpoint := None;
      MarkReindexStarted("SOURCE_REFRESH_REINDEX_REQUESTED");
      return None;
    }

    // ---- rebuild ----

    method VerifyBlock(h: Hash) returns (evident: bool)
      requires db.Valid() && h in db.blocks
      ensures evident <==> BlockEvidence(db.State(), h)
    {
      var rows := QueryBlock(h);
      evident := EvidenceMatches(db.blocks[h], rows);
      forall rows' | ListsBlock(rows', db.events, h) ensures rows' == rows {
        SortedListingIsUnique(rows', rows, RowInBlockBefore);
      }
    }

    method VerifyChain(cp: Checkpoint, q: seq<Hash>) returns (complete: bool)
      requires db.Valid() && forall h <- q :: h in db.blocks
      ensures complete <==> CompleteChain(db.State(), db.scanStart, cp, q)
    {
      var expected := cp.number - db.scanStart + 1;
      if expected < 1 || |q| != expected || q[|q| - 1] != cp.hash {
        return false;
      }
      for i := 0 to |q|
        invariant forall k :: 0 <= k < i ==> db.blocks[q[k]].number == db.scanStart + k
        invariant forall k :: 0 < k < i ==> db.blocks[q[k]].parentHash == q[k - 1]
        invariant forall k :: 0 <= k < i ==> BlockEvidence(db.State(), q[k])
      {
        assert q[i] in q;
        var row := db.blocks[q[i]];
        if row.number != db.scanStart + i || (i > 0 && row.parentHash != q[i - 1]) {
          return false;
        }
        var evident := VerifyBlock(q[i]);
        if !evident {
          return false;
        }
      }
      return true;
    }

    /** verifyRebuildSource: coverage, continuity and evidence of the canonical blocks up to the checkpoint. */
    method VerifyRebuildSource() returns (complete: bool)
      requires db.Valid()
      ensures complete <==> SourceComplete(db.State(), db.scanStart)
    {
      if db.checkpoint.None? {
        complete := forall h <- db.blocks :: !db.blocks[h].canonical;
        return;
      }
      var cp := db.checkpoint.value;
      var q := QueryHeights(cp.number);
      complete := VerifyChain(cp, q);
      forall q' | ListsHeights(q', db.blocks, cp.number) ensures q' == q {
        HeightsAreUnique(db.blocks, cp.number, q', q);
      }
    }

    /** Replays rows into the tables, up to the first error. */
    method ReplayRows(rows: seq<EventRow>) returns (error: Option<ProjectionError>)
      requires db.Valid()
      modifies db`sales, db`claims, db`owners
      ensures db.Valid()
      ensures match Replay(old(db.State().tables), RowEvents(rows))
              case Success(tables) => error == None && db.State().tables == tables
              case Failure(cause) => error == Some(cause)
    {
      var es := RowEvents(rows);
      ghost var start := db.State().tables;
      for i := 0 to |es|
        invariant db.Valid()
        invariant Replay(db.State().tables, es[i..]) == Replay(start, es)
      {
        assert es[i..][0] == es[i] && es[i..][1..] == es[i + 1..];
        var cause := ApplyEvent(es[i]);
        if cause.Some? {
          return cause;
        }
      }
      return None;
    }

    /** Empties the projections and replays the rows into them. */
    method EmptyAndReplay(rows: seq<EventRow>, preserve: bool) returns (error: Option<ProjectionError>)
      requires db.Valid()
      modifies db`sales, db`claims, db`owners, db`status, db`reason
      ensures db.Valid()
      ensures match Replay(EMPTY_TABLES, RowEvents(rows))
              case Success(tables) =>
                && error == None && db.State().tables == tables
                && (preserve ==> db.status == old(db.status) && db.reason == old(db.reason))
              case Failure(cause) => error == Some(cause)
    {
      hide KeyedByColumns, OneCanonicalPerHeight, Replay, RowEvents;
      if !preserve {
        db.SetStatus(Rebuilding, None);
      }
      db.claims, db.sales, db.owners := map[], map[], map[];
      assert db.State().tables == EMPTY_TABLES;
      error := ReplayRows(rows);
    }

    /** The rebuild transaction: deletes the projections and replays the rows into them. */
    method ReplaceProjections(rows: seq<EventRow>, buildId: nat) returns (error: Option<StoreError>)
      requires db.Valid()
      modifies db
      ensures db.Valid()
      ensures Outcome(db.State(), error) ==
              JournalDatabase.ReplaceProjections(old(db.State()), allowReindexRecovery, logScope, buildId, rows)
    {
      hide KeyedByColumns, OneCanonicalPerHeight, Replay, RowEvents;
      var before := db.State();
      var preserve := allowReindexRecovery && db.status.RecoveryRequired?;
      var cause := EmptyAndReplay(rows, preserve);
      if cause.Some? {
        db.Rollback(before);
        db.SetStatus(RecoveryRequired, Some("REBUILD_FAILED"));
        return Some(RebuildFailed(cause.value));
      }
      db.projectorVersion, db.buildId, db.logScope := PROJECTOR_VERSION, buildId, logScope;
      if !preserve {
        db.SetStatus(Current, None);
      }
      return None;
    }

    method RebuildFromJournal(buildId: nat) returns (error: Option<StoreError>)
      requires db.Valid()
      modifies db
      ensures db.Valid()
      ensures exists rows ::
                && ListsJournal(rows, old(db.State()))
                && Outcome(db.State(), error) == Rebuild(old(db.State()), allowReindexRecovery, logScope, db.scanStart, buildId, rows)
    {
      var complete := VerifyRebuildSource();
      var rows := QueryJournal();
      if complete {
        error := ReplaceProjections(rows, buildId);
      } else {
        db.SetStatus(RecoveryRequired, Some("REBUILD_SOURCE_INCOMPLETE"));
        error := Some(RebuildSourceIncomplete);
      }
    }
  }

  lemma HeightsAreUnique(blocks: map<Hash, BlockRow>, last: nat, a: seq<Hash>, b: seq<Hash>)
    requires ListsHeights(a, blocks, last) && ListsHeights(b, blocks, last)
    ensures a == b
  {
    SortedListingIsUnique(a, b, LowerIn(blocks));
  }
}
