/** The recovery barrier: once RECOVERY_REQUIRED is set, only the completion of a reindex takes it away. */
module RecoveryBarrier {
  import opened Wrappers
  import opened Domain
  import opened JournalDatabase

  datatype RuntimeOp =
    | RunCommit(headers: seq<BlockHeader>, events: seq<OrderedEvent>, checkpoint: BlockHeader)
    | RunMarkRecoveryRequired(text: string)
    | RunMarkStale(text: string)
    | RunObserve
    | RunMarkCurrent

  /** An operation of the running indexer, or of a reindex when `allow` is set. */
  function Run(db: Db, allow: bool, scope: string, op: RuntimeOp): Db {
    match op
    case RunCommit(headers, events, checkpoint) => Commit(db, allow, scope, headers, events, checkpoint).db
    case RunMarkRecoveryRequired(text) => MarkRecoveryRequired(db, text)
    case RunMarkStale(text) => MarkStale(db, text)
    case RunObserve => Observe(db)
    case RunMarkCurrent => MarkCurrent(db)
  }

  function RunAll(db: Db, allow: bool, scope: string, ops: seq<RuntimeOp>): Db
    decreases |ops|
  {
    if ops == [] then db else RunAll(Run(db, allow, scope, ops[0]), allow, scope, ops[1..])
  }

  predicate SameData(a: Db, b: Db) {
    a.blocks == b.blocks && a.events == b.events && a.checkpoint == b.checkpoint && a.tables == b.tables
  }

  /** Behind the barrier the running indexer changes no block, event, checkpoint or projection, ever. */
  lemma {:induction false} RuntimeCannotPassBarrier(db: Db, scope: string, ops: seq<RuntimeOp>)
    requires db.status.RecoveryRequired?
    decreases |ops|
    ensures RunAll(db, false, scope, ops).status.RecoveryRequired?
    ensures SameData(RunAll(db, false, scope, ops), db)
  {
    if ops != [] {
      RuntimeCannotPassBarrier(Run(db, false, scope, ops[0]), scope, ops[1..]);
    }
  }

  lemma {:induction false} CommitKeepsStatus(db: Db, allow: bool, scope: string, headers: seq<BlockHeader>,
                                             events: seq<OrderedEvent>, checkpoint: BlockHeader)
    ensures var after := Commit(db, allow, scope, headers, events, checkpoint).db;
            (after.status == db.status && after.reason == db.reason) ||
            after == db.(status := RecoveryRequired, reason := Some("PROJECTOR_INTEGRITY"))
  {
  }

  /** A reindex writes behind the barrier but its own operations leave it standing. */
  lemma {:induction false} ReindexKeepsBarrier(db: Db, scope: string, ops: seq<RuntimeOp>)
    requires db.status.RecoveryRequired?
    decreases |ops|
    ensures RunAll(db, true, scope, ops).status.RecoveryRequired?
  {
    if ops != [] {
      if ops[0].RunCommit? {
        CommitKeepsStatus(db, true, scope, ops[0].headers, ops[0].events, ops[0].checkpoint);
      }
      ReindexKeepsBarrier(Run(db, true, scope, ops[0]), scope, ops[1..]);
    }
  }

  /** Neither do the rewind, the source deletion and the rebuild of a reindex take it away. */
  lemma ReindexPreparationKeepsBarrier(db: Db, from: nat, previous: Option<Checkpoint>, scope: string, scanStart: nat,
                                       buildId: nat, rows: seq<EventRow>)
    requires db.status.RecoveryRequired?
    ensures Rewound(db, true, from, previous).status.RecoveryRequired?
    ensures SourceDeleted(db, true).status.RecoveryRequired?
    ensures Rebuild(db, true, scope, scanStart, buildId, rows).db.status.RecoveryRequired?
  {
  }

  /** It is taken away exactly when the target is canonical and the checkpoint has reached it. */
  lemma BarrierClearsOnlyAtTarget(db: Db, allow: bool, number: nat, hash: Hash)
    requires db.status.RecoveryRequired?
    ensures var out := CompleteReindexRecovery(db, allow, number, hash);
            && SameData(out.db, db)
            && (!out.db.status.RecoveryRequired? <==>
                  && allow && HasCanonicalBlock(db, number, hash)
                  && db.checkpoint.Some? && db.checkpoint.value.number >= number)
            && (!out.db.status.RecoveryRequired? ==> out.db.status.Syncing? && out.db.reason.None? && out.error.None?)
  {
  }

  // ---- a reindex, interleaved with the running indexer ----

  /** What a reindex store does to the database, and what other stores do meanwhile. */
  datatype ReindexOp =
    | Running(op: RuntimeOp, allow: bool)
    | RewindFrom(from: nat, previous: Option<Checkpoint>)
    | DeleteSource
    | RebuildTables(scanStart: nat, buildId: nat, rows: seq<EventRow>)
    | Complete(number: nat, hash: Hash)

  ghost function Reindexed(db: Db, scope: string, op: ReindexOp): Db {
    match op
    case Running(run, allow) => Run(db, allow, scope, run)
    case RewindFrom(from, previous) => Rewound(db, true, from, previous)
    case DeleteSource => SourceDeleted(db, true)
    case RebuildTables(scanStart, buildId, rows) => Rebuild(db, true, scope, scanStart, buildId, rows).db
    case Complete(number, hash) => CompleteReindexRecovery(db, true, number, hash).db
  }

  ghost function ReindexedAll(db: Db, scope: string, ops: seq<ReindexOp>): Db
    decreases |ops|
  {
    if ops == [] then db else Reindexed(ReindexedAll(db, scope, ops[..|ops| - 1]), scope, ops[|ops| - 1])
  }

  /** Operation `i` completes the reindex: behind the barrier, its target canonical and the checkpoint at or above it. */
  ghost predicate CompletesAt(db: Db, scope: string, ops: seq<ReindexOp>, i: nat)
    requires i < |ops|
  {
    var before, op := ReindexedAll(db, scope, ops[..i]), ops[i];
    && op.Complete? && before.status.RecoveryRequired?
    && HasCanonicalBlock(before, op.number, op.hash)
    && before.checkpoint.Some? && before.checkpoint.value.number >= op.number
  }

  lemma OnlyCompletionLifts(db: Db, scope: string, op: ReindexOp)
    requires db.status.RecoveryRequired?
    ensures !Reindexed(db, scope, op).status.RecoveryRequired? <==>
              && op.Complete? && HasCanonicalBlock(db, op.number, op.hash)
              && db.checkpoint.Some? && db.checkpoint.value.number >= op.number
  {
    match op
    case Running(run, allow) =>
      if run.RunCommit? {
        CommitKeepsStatus(db, allow, scope, run.headers, run.events, run.checkpoint);
      }
    case RewindFrom(from, previous) => ReindexPreparationKeepsBarrier(db, from, previous, scope, 0, 0, []);
    case DeleteSource =>
    case RebuildTables(scanStart, buildId, rows) => ReindexPreparationKeepsBarrier(db, 0, None, scope, scanStart, buildId, rows);
    case Complete(number, hash) => BarrierClearsOnlyAtTarget(db, true, number, hash);
  }

  /** Over any interleaving of rewinds, source deletions, rebuilds, commits and status updates, of the reindex and of
      the running indexer, a raised barrier is lifted only by a completion whose target is canonical and reached. */
  lemma {:induction false} OnlyReachedTargetClears(db: Db, scope: string, ops: seq<ReindexOp>)
    requires db.status.RecoveryRequired?
    decreases |ops|
    ensures (forall i: nat | i < |ops| :: !CompletesAt(db, scope, ops, i)) ==> ReindexedAll(db, scope, ops).status.RecoveryRequired?
  {
    if ops != [] {
      var n := |ops| - 1;
      var init := ops[..n];
      OnlyReachedTargetClears(db, scope, init);
      if forall i: nat | i < |ops| :: !CompletesAt(db, scope, ops, i) {
        forall i: nat | i < n ensures !CompletesAt(db, scope, init, i) {
          assert init[..i] == ops[..i] && !CompletesAt(db, scope, ops, i);
        }
        OnlyCompletionLifts(ReindexedAll(db, scope, init), scope, ops[n]);
        assert !CompletesAt(db, scope, ops, n);
      }
    }
  }

  /** And such a completion does lift it. */
  lemma ReachedTargetClears(db: Db, scope: string, ops: seq<ReindexOp>, i: nat)
    requires i < |ops| && CompletesAt(db, scope, ops, i)
    ensures !ReindexedAll(db, scope, ops[..i + 1]).status.RecoveryRequired?
  {
    assert ops[..i + 1][..i] == ops[..i];
    OnlyCompletionLifts(ReindexedAll(db, scope, ops[..i]), scope, ops[i]);
  }
}
