/** The indexer's database rows and what each store operation does to them, as functions on values.
    ProjectionStore carries them out step by step; Ledger says what they mean. */
module JournalDatabase {
  import opened Wrappers
  import opened Domain
  import opened Projectors
  import opened ProjectionTables
  import opened Listings

  datatype Checkpoint = Checkpoint(number: nat, hash: Hash)

  datatype BlockRow = BlockRow(
    number: nat, parentHash: Hash, timestamp: nat, canonical: bool, scanComplete: bool,
    logScope: string, logCount: nat, logDigest: Digest<seq<Envelope>>)

  datatype EventKey = EventKey(blockHash: Hash, logIndex: nat)

  datatype EventRow = EventRow(
    envelope: Envelope, rawDigest: Digest<Envelope>, decoded: Event, decoderVersion: string,
    recordDigest: Option<Digest<SourceRecord>>)

  datatype Status = Uninitialized | Syncing | Current | Stale | RebuildRequired | Rebuilding | RecoveryRequired

  datatype Db = Db(
    blocks: map<Hash, BlockRow>, events: map<EventKey, EventRow>, checkpoint: Option<Checkpoint>,
    tables: Tables, projectorVersion: string, buildId: nat, logScope: string,
    status: Status, reason: Option<string>)

  datatype StoreError =
    | ProjectionRecoveryRequired(reason: Option<string>)
    | CompletedBlockContentMismatch
    | UniqueCanonicalHeight
    | EventIdentityContentMismatch
    | ProjectionFailed(cause: ProjectionError)
    | CheckpointBlockMissing
    | RebuildSourceIncomplete
    | RebuildFailed(cause: ProjectionError)
    | ReindexMaintenanceRequired
    | ReindexCatchupIncomplete
    | SourceRefreshArchiveRequired
    | SourceRefreshMustStartAtDeployment

  /** The state a statement or transaction leaves, and the error it throws, if any. */
  datatype Outcome = Outcome(db: Db, error: Option<StoreError>)

  // ---- table constraints ----

  /** The partial unique index on canonical heights. */
  ghost predicate OneCanonicalPerHeight(blocks: map<Hash, BlockRow>) {
    forall g <- blocks, h <- blocks ::
      blocks[g].canonical && blocks[h].canonical && blocks[g].number == blocks[h].number ==> g == h
  }

  /** The primary key of chain_events is made of two of its columns. */
  ghost predicate KeyedByColumns(events: map<EventKey, EventRow>) {
    forall k <- events :: events[k].envelope.blockHash == k.blockHash && events[k].envelope.logIndex == k.logIndex
  }

  predicate HeightTaken(blocks: map<Hash, BlockRow>, number: nat, self: Hash) {
    exists g <- blocks :: g != self && blocks[g].canonical && blocks[g].number == number
  }

  function KeyOf(e: OrderedEvent): EventKey {
    EventKey(e.envelope.blockHash, e.envelope.logIndex)
  }

  function RowOf(e: OrderedEvent): EventRow {
    EventRow(e.envelope, Digest(e.envelope), e.event, DECODER_VERSION,
             Some(Digest(SourceRecord(e.envelope, e.event, DECODER_VERSION))))
  }

  function EventOf(row: EventRow): OrderedEvent {
    OrderedEvent(row.envelope, row.decoded)
  }

  /** The stored digests and decoder version are those of the row's own content. */
  predicate Intact(row: EventRow) {
    row == RowOf(EventOf(row))
  }

  // ---- commit ----

  /** Array.sort by (transactionIndex, logIndex), as a stable insertion sort. */
  function InsertLog(e: OrderedEvent, es: seq<OrderedEvent>): seq<OrderedEvent> {
    if es == [] || !LogBefore(es[0].envelope, e.envelope) then [e] + es
    else [es[0]] + InsertLog(e, es[1..])
  }

  function SortLogs(es: seq<OrderedEvent>): seq<OrderedEvent> {
    if es == [] then [] else InsertLog(es[0], SortLogs(es[1..]))
  }

  function AtHeight(es: seq<OrderedEvent>, number: nat): seq<OrderedEvent> {
    if es == [] then []
    else if es[0].envelope.blockNumber == number then [es[0]] + AtHeight(es[1..], number)
    else AtHeight(es[1..], number)
  }

  /** The envelopes whose digest commit records for a height. */
  function ObservedLogs(es: seq<OrderedEvent>, number: nat): seq<Envelope> {
    Envelopes(SortLogs(AtHeight(es, number)))
  }

  function StoreHeader(blocks: map<Hash, BlockRow>, header: BlockHeader, logs: seq<Envelope>, scope: string)
    : Result<map<Hash, BlockRow>, StoreError>
  {
    if header.hash in blocks then
      var row := blocks[header.hash];
      if row.logCount != |logs| || row.logDigest != Digest(logs) || row.logScope != scope
         || row.parentHash != header.parentHash then Failure(CompletedBlockContentMismatch)
      else if row.canonical then Success(blocks)
      else if HeightTaken(blocks, row.number, header.hash) then Failure(UniqueCanonicalHeight)
      else Success(blocks[header.hash := row.(canonical := true, scanComplete := true)])
    else if HeightTaken(blocks, header.number, header.hash) then Failure(UniqueCanonicalHeight)
    else
      Success(blocks[header.hash := BlockRow(header.number, header.parentHash, header.timestamp, true, true,
                                             scope, |logs|, Digest(logs))])
  }

  predicate Recanonicalizes(blocks: map<Hash, BlockRow>, header: BlockHeader) {
    header.hash in blocks && !blocks[header.hash].canonical
  }

  /** The block table after all headers, with the blocks that became canonical again. */
  datatype StoredHeaders = StoredHeaders(blocks: map<Hash, BlockRow>, recanonicalized: set<Hash>)

  function StoreHeaders(s: StoredHeaders, headers: seq<BlockHeader>, events: seq<OrderedEvent>, scope: string)
    : Result<StoredHeaders, StoreError>
    decreases |headers|
  {
    if headers == [] then Success(s)
    else
      var header := headers[0];
      var blocks :- StoreHeader(s.blocks, header, ObservedLogs(events, header.number), scope);
      var again := if Recanonicalizes(s.blocks, header) then s.recanonicalized + {header.hash} else s.recanonicalized;
      StoreHeaders(StoredHeaders(blocks, again), headers[1..], events, scope)
  }

  datatype Journal = Journal(events: map<EventKey, EventRow>, tables: Tables)

  function RecordEvent(j: Journal, e: OrderedEvent, applyExisting: bool): Result<Journal, StoreError> {
    var key := KeyOf(e);
    if key in j.events then
      var row := j.events[key];
      if row.rawDigest != Digest(e.envelope) || row.decoded != e.event || row.decoderVersion != DECODER_VERSION
         || row.recordDigest != RowOf(e).recordDigest then Failure(EventIdentityContentMismatch)
      else if applyExisting then Applied(j, e)
      else Success(j)
    else Applied(j.(events := j.events[key := RowOf(e)]), e)
  }

  function Applied(j: Journal, e: OrderedEvent): Result<Journal, StoreError> {
    match ApplyEvent(j.tables, e)
    case Success(tables) => Success(j.(tables := tables))
    case Failure(cause) => Failure(ProjectionFailed(cause))
  }

  function RecordEvents(j: Journal, es: seq<OrderedEvent>, recanonicalized: set<Hash>): Result<Journal, StoreError>
    decreases |es|
  {
    if es == [] then Success(j)
    else
      var next :- RecordEvent(j, es[0], es[0].envelope.blockHash in recanonicalized);
      RecordEvents(next, es[1..], recanonicalized)
  }

  function CommitTransaction(db: Db, allowReindexRecovery: bool, scope: string, headers: seq<BlockHeader>,
                             events: seq<OrderedEvent>, checkpoint: BlockHeader): Result<Db, StoreError>
  {
    if db.status.RecoveryRequired? && !allowReindexRecovery then Failure(ProjectionRecoveryRequired(db.reason))
    else
      var stored :- StoreHeaders(StoredHeaders(db.blocks, {}), headers, events, scope);
      var journal :- RecordEvents(Journal(db.events, db.tables), events, stored.recanonicalized);
      Success(db.(blocks := stored.blocks, events := journal.events, tables := journal.tables,
                  checkpoint := Some(Checkpoint(checkpoint.number, checkpoint.hash))))
  }

  /** A failed transaction is rolled back; a missing prerequisite then raises the recovery barrier. */
  function Commit(db: Db, allowReindexRecovery: bool, scope: string, headers: seq<BlockHeader>,
                  events: seq<OrderedEvent>, checkpoint: BlockHeader): Outcome
  {
    match CommitTransaction(db, allowReindexRecovery, scope, headers, events, checkpoint)
    case Success(after) => Outcome(after, None)
    case Failure(error) =>
      Outcome(if error.ProjectionFailed? && error.cause.Integrity?
              then db.(status := RecoveryRequired, reason := Some("PROJECTOR_INTEGRITY")) else db,
              Some(error))
  }

  // ---- rewind and source refresh ----

  function Orphan(blocks: map<Hash, BlockRow>, from: nat): map<Hash, BlockRow> {
    map h <- blocks :: if blocks[h].number >= from then blocks[h].(canonical := false) else blocks[h]
  }

  /** `h` is the highest canonical completed block below `from`. */
  ghost predicate HighestBelow(blocks: map<Hash, BlockRow>, from: nat, h: Hash) {
    && Candidate(blocks, from, h)
    && forall g <- blocks :: Candidate(blocks, from, g) ==> blocks[g].number <= blocks[h].number
  }

  predicate Candidate(blocks: map<Hash, BlockRow>, from: nat, h: Hash) {
    h in blocks && blocks[h].canonical && blocks[h].scanComplete && blocks[h].number < from
  }

  ghost predicate PreviousCheckpoint(blocks: map<Hash, BlockRow>, from: nat, c: Option<Checkpoint>) {
    match c
    case None => forall h <- blocks :: !Candidate(blocks, from, h)
    case Some(cp) => HighestBelow(blocks, from, cp.hash) && blocks[cp.hash].number == cp.number
  }

  /** An already raised barrier survives the start of a reindex. */
  function ReindexStarted(db: Db, allowReindexRecovery: bool, reason: string): Db {
    if allowReindexRecovery && db.status.RecoveryRequired? then db
    else db.(status := RebuildRequired, reason := Some(reason))
  }

  function Rewound(db: Db, allowReindexRecovery: bool, from: nat, previous: Option<Checkpoint>): Db {
    ReindexStarted(db.(blocks := Orphan(db.blocks, from), checkpoint := previous),
                   allowReindexRecovery, "REINDEX_REQUESTED")
  }

  function SourceDeleted(db: Db, allowReindexRecovery: bool): Db {
    ReindexStarted(db.(blocks := map[], events := map[], checkpoint := None),
                   allowReindexRecovery, "SOURCE_REFRESH_REINDEX_REQUESTED")
  }

  // ---- queries: ORDER BY as a listing of the selected rows ----

  predicate RowInBlockBefore(a: EventRow, b: EventRow) {
    LogBefore(a.envelope, b.envelope)
  }

  predicate RowBefore(a: EventRow, b: EventRow) {
    Before(a.envelope, b.envelope)
  }

  function LowerIn(blocks: map<Hash, BlockRow>): (Hash, Hash) -> bool {
    (g: Hash, h: Hash) => g in blocks && h in blocks && blocks[g].number < blocks[h].number
  }

  /** The rows of one block ORDER BY transaction_index, log_index. */
  ghost predicate ListsBlock(q: seq<EventRow>, events: map<EventKey, EventRow>, h: Hash) {
    && Lists(q, iset k <- events | k.blockHash == h :: events[k])
    && Sorted(q, RowInBlockBefore)
  }

  /** Canonical completed blocks up to a height ORDER BY block_number. */
  ghost predicate ListsHeights(q: seq<Hash>, blocks: map<Hash, BlockRow>, last: nat) {
    && Lists(q, iset h <- blocks | blocks[h].canonical && blocks[h].scanComplete && blocks[h].number <= last)
    && (forall i :: 0 <= i < |q| ==> q[i] in blocks)
    && Sorted(q, LowerIn(blocks))
  }

  predicate CanonicalEvent(db: Db, k: EventKey) {
    k in db.events && k.blockHash in db.blocks && db.blocks[k.blockHash].canonical && db.blocks[k.blockHash].scanComplete
  }

  /** The canonical journal ORDER BY block_number, transaction_index, log_index; ties in any order. */
  ghost predicate ListsJournal(q: seq<EventRow>, db: Db) {
    && Lists(q, iset k <- db.events | CanonicalEvent(db, k) :: db.events[k])
    && NotDescending(q, RowBefore)
  }

  function RowEnvelopes(q: seq<EventRow>): (r: seq<Envelope>)
    ensures |r| == |q| && forall i :: 0 <= i < |q| ==> r[i] == q[i].envelope
  {
    seq(|q|, i requires 0 <= i < |q| => q[i].envelope)
  }

  function RowEvents(q: seq<EventRow>): (r: seq<OrderedEvent>)
    ensures |r| == |q| && forall i :: 0 <= i < |q| ==> r[i] == EventOf(q[i])
  {
    seq(|q|, i requires 0 <= i < |q| => EventOf(q[i]))
  }

  // ---- rebuild ----

  /** A block's stored events are exactly what was observed when it was scanned. */
  predicate EvidenceMatches(row: BlockRow, q: seq<EventRow>) {
    |q| == row.logCount && Digest(RowEnvelopes(q)) == row.logDigest && forall r <- q :: Intact(r)
  }

  ghost predicate BlockEvidence(db: Db, h: Hash) {
    h in db.blocks && exists q :: ListsBlock(q, db.events, h) && EvidenceMatches(db.blocks[h], q)
  }

  /** Canonical rows up to the checkpoint are the heights from scanStart on, linked, with full evidence. */
  ghost predicate SourceComplete(db: Db, scanStart: nat) {
    match db.checkpoint
    case None => forall h <- db.blocks :: !db.blocks[h].canonical
    case Some(cp) => exists q :: ListsHeights(q, db.blocks, cp.number) && CompleteChain(db, scanStart, cp, q)
  }

  ghost predicate CompleteChain(db: Db, scanStart: nat, cp: Checkpoint, q: seq<Hash>)
    requires forall h <- q :: h in db.blocks
  {
    && |q| > 0 && |q| == cp.number - scanStart + 1 && q[|q| - 1] == cp.hash
    && (forall i :: 0 <= i < |q| ==> db.blocks[q[i]].number == scanStart + i)
    && (forall i :: 0 < i < |q| ==> db.blocks[q[i]].parentHash == q[i - 1])
    && (forall i :: 0 <= i < |q| ==> BlockEvidence(db, q[i]))
  }

  /** rebuildFromJournal, given the order in which the query returned the canonical rows. */
  ghost function Rebuild(db: Db, allowReindexRecovery: bool, scope: string, scanStart: nat, buildId: nat,
                         rows: seq<EventRow>): Outcome
  {
    if SourceComplete(db, scanStart) then ReplaceProjections(db, allowReindexRecovery, scope, buildId, rows)
    else Outcome(db.(status := RecoveryRequired, reason := Some("REBUILD_SOURCE_INCOMPLETE")), Some(RebuildSourceIncomplete))
  }

  /** The rebuild transaction: empty the projections and replay the rows. A raised barrier survives a reindex. */
  function ReplaceProjections(db: Db, allowReindexRecovery: bool, scope: string, buildId: nat, rows: seq<EventRow>): Outcome {
    match Replay(EMPTY_TABLES, RowEvents(rows))
    case Failure(cause) =>
      Outcome(db.(status := RecoveryRequired, reason := Some("REBUILD_FAILED")), Some(RebuildFailed(cause)))
    case Success(tables) =>
      var keepBarrier := allowReindexRecovery && db.status.RecoveryRequired?;
      Outcome(db.(tables := tables, projectorVersion := PROJECTOR_VERSION, buildId := buildId, logScope := scope,
                  status := if keepBarrier then db.status else Current,
                  reason := if keepBarrier then db.reason else None),
              None)
  }

  /** Some stored row no longer matches its digests, or a completed block holds other logs than observed. */
  ghost predicate SourceMismatch(db: Db) {
    || (exists k <- db.events :: !Intact(db.events[k]))
    || (exists h <- db.blocks :: db.blocks[h].scanComplete && OverfullOrChanged(db, h))
  }

  ghost predicate OverfullOrChanged(db: Db, h: Hash)
    requires h in db.blocks
  {
    exists q :: ListsBlock(q, db.events, h) && BlockDiffers(db.blocks[h], q)
  }

  predicate BlockDiffers(row: BlockRow, q: seq<EventRow>) {
    |q| > row.logCount || (|q| == row.logCount && Digest(RowEnvelopes(q)) != row.logDigest)
  }

  // ---- status updates ----

  function MarkRecoveryRequired(db: Db, reason: string): Db {
    db.(status := RecoveryRequired, reason := Some(reason))
  }

  function MarkStale(db: Db, reason: string): Db {
    if db.status.RecoveryRequired? then db else db.(status := Stale, reason := Some(reason))
  }

  function Observe(db: Db): Db {
    if db.status.Uninitialized? || db.status.Stale? then db.(status := Syncing) else db
  }

  function MarkCurrent(db: Db): Db {
    if db.status.Current? || db.status.Stale? || db.status.Syncing? then db.(status := Current, reason := None) else db
  }

  predicate HasCanonicalBlock(db: Db, number: nat, hash: Hash) {
    hash in db.blocks && db.blocks[hash].number == number && db.blocks[hash].canonical && db.blocks[hash].scanComplete
  }

  function CompleteReindexRecovery(db: Db, allowReindexRecovery: bool, number: nat, hash: Hash): Outcome {
    if !allowReindexRecovery then Outcome(db, Some(ReindexMaintenanceRequired))
    else if db.checkpoint.None? || db.checkpoint.value.number < number || !HasCanonicalBlock(db, number, hash) then
      Outcome(db, Some(ReindexCatchupIncomplete))
    else Outcome(db.(status := Syncing, reason := None), None)
  }
}
