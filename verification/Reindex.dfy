/** The reindex command as a resumable operation: what holds of the marker and the database between any two
    durable writes, and the one state in which every completed schedule of attempts ends. */
module Reindex {
  import opened Wrappers
  import opened Domain
  import opened ProjectionTables
  import opened JournalDatabase
  import opened Ledger
  import opened CommitLedger
  import opened RebuildLedger
  import opened RangeBatch
  import opened SteadyChain
  import opened ChainAccess
  import opened ProjectionStore
  import opened IngestRange
  import opened CatchUp
  import opened Maintenance
  import opened Convergence

  /** What a reindex starts from: its log scope and first height, and the history it keeps below that height. */
  datatype Job = Job(scope: string, scanStart: nat, from: nat, kept: seq<BlockLog>,
                     headerOf: Hash -> BlockHeader, eventsOf: Hash -> seq<OrderedEvent>)

  ghost predicate NeedsRefresh(db: Db, scope: string) {
    db.logScope != scope || SourceMismatch(db)
  }

  /** Before the cut: the blocks below `from` are those to keep, or the whole source has to be fetched anew. */
  ghost predicate Uncut(db: Db, l: Ledger, job: Job) {
    || (NeedsRefresh(db, job.scope) && job.kept == [])
    || (db.logScope == job.scope && Represents(db, l, job.scanStart) && HeadersKnown(l, job.headerOf)
        && History(Truncate(l, job.scanStart, job.from)) == job.kept)
  }

  /** After the cut: exactly the kept history, or nothing. */
  ghost predicate Cut(db: Db, l: Ledger, job: Job) {
    && Represents(db, l, job.scanStart) && HeadersKnown(l, job.headerOf) && History(l) == job.kept
    && History(Truncate(l, job.scanStart, job.from)) == job.kept
    && (db.logScope == job.scope || (db.blocks == map[] && db.events == map[] && l == EMPTY_LEDGER))
  }

  /** After the rebuild: the projections agree, and nothing added to the kept history is above the target. */
  ghost predicate Growing(db: Db, l: Ledger, job: Job, target: nat) {
    && db.logScope == job.scope && db.projectorVersion == PROJECTOR_VERSION
    && Agrees(db, l, job.scanStart) && HeadersKnown(l, job.headerOf)
    && job.kept <= History(l)
    && (|l.canon| > |job.kept| ==> job.scanStart + |l.canon| - 1 <= target)
  }

  /** The logs of whatever was added to the kept history are those known for the job. */
  ghost predicate AddedFrom(l: Ledger, job: Job) {
    && (forall h <- l.canon :: h in l.archive) && |job.kept| <= |l.canon|
    && EventsFrom(History(l)[|job.kept|..], job.eventsOf)
  }

  /** It holds of a reindex from the moment it records CATCHING_UP. */
  ghost predicate Sourced(marker: Option<Marker>, l: Ledger, job: Job) {
    CatchesUp(marker) ==> AddedFrom(l, job)
  }

  /** The end of a completed reindex. */
  ghost predicate Finished(db: Db, l: Ledger, job: Job, target: ReindexTarget) {
    && Growing(db, l, job, target.number)
    && db.checkpoint.Some? && db.checkpoint.value.number >= target.number
    && HasCanonicalBlock(db, target.number, target.hash)
    && db.status.Syncing? && db.reason.None?
  }

  predicate CatchesUp(marker: Option<Marker>) {
    marker.Some? && marker.value.phase == Some(CatchingUp)
  }

  /** Only a reindex records phases, and a reindex marker carries its target. */
  predicate MarkerFits(m: Marker, job: Job) {
    if m.operation.ReindexProjection? then m.recovery.Some? && m.recovery.value.from == job.from else m.phase == None
  }

  /** The invariant between any two durable writes of any attempt. */
  ghost predicate Resumable(marker: Option<Marker>, db: Db, l: Ledger, job: Job) {
    && (marker.Some? ==> MarkerFits(marker.value, job))
    && if CatchesUp(marker) then Growing(db, l, job, marker.value.recovery.value.target.number) else Uncut(db, l, job)
  }

  // ---- what each durable write does to the invariant ----

  lemma StatusKeepsUncut(a: Db, b: Db, l: Ledger, job: Job)
    requires Uncut(a, l, job) && StatusOnly(a, b)
    ensures Uncut(b, l, job)
  {
    if SourceMismatch(a) {
      StatusKeepsMismatch(a, b);
    }
  }

  lemma StatusKeepsMismatch(a: Db, b: Db)
    requires SourceMismatch(a) && StatusOnly(a, b)
    ensures SourceMismatch(b)
  {
    if h :| h in a.blocks && a.blocks[h].scanComplete && OverfullOrChanged(a, h) {
      assert OverfullOrChanged(b, h);
    }
  }

  lemma StatusKeepsGrowing(a: Db, b: Db, l: Ledger, job: Job, target: nat)
    requires Growing(a, l, job, target) && StatusOnly(a, b)
    ensures Growing(b, l, job, target)
  {
  }

  lemma TruncateTwice(l: Ledger, scanStart: nat, from: nat)
    ensures Truncate(Truncate(l, scanStart, from), scanStart, from) == Truncate(l, scanStart, from)
  {
  }

  lemma RewindCuts(db: Db, l: Ledger, job: Job, previous: Option<Checkpoint>, allow: bool)
    requires Uncut(db, l, job) && !NeedsRefresh(db, job.scope)
    requires PreviousCheckpoint(Orphan(db.blocks, job.from), job.from, previous)
    ensures Cut(Rewound(db, allow, job.from, previous), Truncate(l, job.scanStart, job.from), job)
  {
    RewindTruncates(db, l, job.scanStart, job.from, previous, allow);
    TruncateTwice(l, job.scanStart, job.from);
  }

  lemma DeletionCuts(db: Db, l: Ledger, job: Job, allow: bool)
    requires Uncut(db, l, job) && NeedsRefresh(db, job.scope)
    ensures Cut(SourceDeleted(db, allow), EMPTY_LEDGER, job)
  {
    if job.kept != [] {
      RepresentedSourceMatches(db, l, job.scanStart);
      assert false;
    }
    assert Truncate(EMPTY_LEDGER, job.scanStart, job.from) == EMPTY_LEDGER;
    assert History(EMPTY_LEDGER) == [];
  }

  /** A second attempt may cut again. */
  lemma CutIsUncut(db: Db, l: Ledger, job: Job)
    requires Cut(db, l, job)
    ensures Uncut(db, l, job)
  {
  }

  /** What a rebuild leaves behind when it fails: only the status differs. */
  lemma RebuildKeepsRest(db: Db, scope: string, scanStart: nat, rows: seq<EventRow>, allow: bool, buildId: nat)
    ensures var out := Rebuild(db, allow, scope, scanStart, buildId, rows);
            && (out.error.Some? ==> StatusOnly(db, out.db) && out.db.status.RecoveryRequired?)
            && (out.error.None? ==> out.db.logScope == scope && out.db.projectorVersion == PROJECTOR_VERSION)
            && (allow && db.status.RecoveryRequired? ==> out.db.status.RecoveryRequired?)
  {
  }

  /** A rebuild of the cut journal makes the projections agree with the kept history. */
  lemma RebuildStartsGrowing(db: Db, l: Ledger, job: Job, rows: seq<EventRow>, allow: bool, buildId: nat, target: nat)
    requires Cut(db, l, job) && ListsJournal(rows, db)
    ensures var out := Rebuild(db, allow, job.scope, job.scanStart, buildId, rows);
            && Uncut(out.db, l, job)
            && (out.error.None? ==> Growing(out.db, l, job, target))
  {
    hide Represents, HeadersKnown, ListsJournal, NeedsRefresh, Agrees, WellFormed;
    var out := Rebuild(db, allow, job.scope, job.scanStart, buildId, rows);
    RebuildKeepsRest(db, job.scope, job.scanStart, rows, allow, buildId);
    if out.error.Some? {
      CutIsUncut(db, l, job);
      StatusKeepsUncut(db, out.db, l, job);
    } else {
      RebuildOfCut(db, l, job, rows, allow, buildId);
      AgreesRepresents(out.db, l, job.scanStart);
    }
  }

  lemma RebuildOfCut(db: Db, l: Ledger, job: Job, rows: seq<EventRow>, allow: bool, buildId: nat)
    requires Cut(db, l, job) && ListsJournal(rows, db)
    requires Rebuild(db, allow, job.scope, job.scanStart, buildId, rows).error.None?
    ensures Agrees(Rebuild(db, allow, job.scope, job.scanStart, buildId, rows).db, l, job.scanStart)
  {
    if db.logScope == job.scope {
      RebuildRestoresAgreement(db, l, job.scanStart, rows, allow, buildId);
    } else {
      EmptyRebuild(db, job.scope, job.scanStart, rows, allow, buildId);
    }
  }

  lemma AgreesRepresents(db: Db, l: Ledger, scanStart: nat)
    requires Agrees(db, l, scanStart)
    ensures Represents(db, l, scanStart) && (forall h <- l.canon :: h in l.archive) && |History(l)| == |l.canon|
  {
  }

  /** Resumed while catching up, the rebuild changes no projection and removes no block. */
  lemma RebuildKeepsGrowing(db: Db, l: Ledger, job: Job, target: nat, rows: seq<EventRow>, allow: bool, buildId: nat)
    requires Growing(db, l, job, target) && ListsJournal(rows, db)
    ensures var out := Rebuild(db, allow, job.scope, job.scanStart, buildId, rows);
            out.error.None? && Growing(out.db, l, job, target) && out.db.tables == db.tables
  {
    hide HeadersKnown, ListsJournal, WellFormed;
    RebuildIsIdempotent(db, l, job.scanStart, rows, allow, buildId);
    RebuildKeepsRest(db, job.scope, job.scanStart, rows, allow, buildId);
  }

  /** Every block of `l`'s canonical history is still canonical in `grown`. */
  ghost predicate Extends(l: Ledger, grown: Ledger) {
    && (forall h <- l.canon :: h in l.archive) && (forall h <- grown.canon :: h in grown.archive)
    && History(l) <= History(grown)
  }

  /** Catching up keeps growing. */
  lemma AddedGrows(l: Ledger, job: Job, target: nat, added: seq<BlockLog>, grown: Ledger)
    requires GrownTo(l, added, grown, job.scanStart, target, job.headerOf)
    ensures AddedFrom(l, job) && EventsFrom(added, job.eventsOf) ==> AddedFrom(grown, job)
  {
    hide HeadersKnown, EventsFrom;
    CanonIsArchived(l, job.scanStart);
    CanonIsArchived(grown, job.scanStart);
    if AddedFrom(l, job) && EventsFrom(added, job.eventsOf) {
      var k := |job.kept|;
      assert History(grown)[k..] == History(l)[k..] + added;
      GrownEvents(History(l)[k..], added, job.eventsOf);
    }
  }

  lemma CutIsSourced(db: Db, l: Ledger, job: Job)
    requires Cut(db, l, job)
    ensures AddedFrom(l, job)
  {
    AddedNothing(l, job);
  }

  lemma AddedNothing(l: Ledger, job: Job)
    requires (forall h <- l.canon :: h in l.archive) && History(l) == job.kept
    ensures AddedFrom(l, job)
  {
    assert History(l)[|job.kept|..] == [];
  }

  lemma GrowsOn(a: Db, l: Ledger, job: Job, target: nat, added: seq<BlockLog>, grown: Ledger, b: Db)
    requires Growing(a, l, job, target)
    requires GrownTo(l, added, grown, job.scanStart, target, job.headerOf)
    requires Agrees(b, grown, job.scanStart) && b.logScope == a.logScope && b.projectorVersion == a.projectorVersion
    ensures Growing(b, grown, job, target) && Extends(l, grown)
  {
    hide Represents, HeadersKnown, WellFormed, Agrees;
    AgreesRepresents(a, l, job.scanStart);
    AgreesRepresents(b, grown, job.scanStart);
  }

  // ---- one end for all schedules ----

  /** Two chains that meet at a height are equal below it, as far as both reach. */
  lemma {:induction false} LinkedDown(la: Ledger, lb: Ledger, scanStart: nat, headerOf: Hash -> BlockHeader, i: nat, top: nat)
    requires WellFormed(la, scanStart) && WellFormed(lb, scanStart) && HeadersKnown(la, headerOf) && HeadersKnown(lb, headerOf)
    requires i <= top < |la.canon| && top < |lb.canon| && la.canon[top] == lb.canon[top]
    decreases top - i
    ensures la.canon[i] == lb.canon[i]
  {
    if i < top {
      LinkedDown(la, lb, scanStart, headerOf, i + 1, top);
      assert headerOf(la.canon[i + 1]).parentHash == la.canon[i];
    }
  }

  lemma FinishedLength(db: Db, l: Ledger, job: Job, target: ReindexTarget)
    requires Finished(db, l, job, target)
    ensures WellFormed(l, job.scanStart) && job.scanStart <= target.number && |History(l)| == |l.canon|
    ensures |l.canon| == if target.number - job.scanStart < |job.kept| then |job.kept| else target.number - job.scanStart + 1
    ensures l.canon[target.number - job.scanStart] == target.hash
  {
    CanonPosition(db, l, job.scanStart, target.hash);
  }

  lemma BlockAt(l: Ledger, job: Job, scanStart: nat, i: nat)
    requires WellFormed(l, scanStart) && HeadersKnown(l, job.headerOf)
    requires |job.kept| <= i < |l.canon| && AddedFrom(l, job)
    ensures History(l)[i] == BlockLog(job.headerOf(l.canon[i]), job.eventsOf(l.canon[i]))
  {
    assert History(l)[|job.kept|..][i - |job.kept|] == History(l)[i];
    assert History(l)[i] in History(l)[|job.kept|..];
  }

  /** What a finished state says of its ledger, apart from the database. */
  ghost predicate Reaches(l: Ledger, job: Job, target: ReindexTarget) {
    && WellFormed(l, job.scanStart) && HeadersKnown(l, job.headerOf)
    && job.kept <= History(l) && AddedFrom(l, job)
    && job.scanStart <= target.number < job.scanStart + |l.canon|
    && |l.canon| == (if target.number - job.scanStart < |job.kept| then |job.kept| else target.number - job.scanStart + 1)
    && l.canon[target.number - job.scanStart] == target.hash
  }

  lemma FinishedReaches(db: Db, l: Ledger, job: Job, target: ReindexTarget)
    requires Finished(db, l, job, target) && AddedFrom(l, job)
    ensures Reaches(l, job, target)
  {
    FinishedLength(db, l, job, target);
  }

  lemma SameBlockAt(la: Ledger, lb: Ledger, job: Job, target: ReindexTarget, i: nat)
    requires Reaches(la, job, target) && Reaches(lb, job, target) && i < |la.canon|
    ensures History(la)[i] == History(lb)[i]
  {
    if i < |job.kept| {
      assert History(la)[i] == job.kept[i] == History(lb)[i];
    } else {
      LinkedDown(la, lb, job.scanStart, job.headerOf, i, target.number - job.scanStart);
      BlockAt(la, job, job.scanStart, i);
      BlockAt(lb, job, job.scanStart, i);
    }
  }

  /** The kept history and the target determine the whole history. */
  lemma OneHistory(la: Ledger, lb: Ledger, job: Job, target: ReindexTarget)
    requires Reaches(la, job, target) && Reaches(lb, job, target)
    ensures History(la) == History(lb)
  {
    forall i | 0 <= i < |la.canon| ensures History(la)[i] == History(lb)[i] {
      SameBlockAt(la, lb, job, target, i);
    }
  }

  /** Crash points, reruns and whatever the chain answered meanwhile leave no trace: completed reindexes of one
      source to one target end with the same projections, checkpoint, canonical rows and status. */
  lemma CompletedReindexesAgree(a: Db, la: Ledger, b: Db, lb: Ledger, job: Job, target: ReindexTarget)
    requires Finished(a, la, job, target) && Finished(b, lb, job, target) && AddedFrom(la, job) && AddedFrom(lb, job)
    ensures a.tables == b.tables && a.checkpoint == b.checkpoint && a.status == b.status && a.reason == b.reason
    ensures a.projectorVersion == b.projectorVersion && a.logScope == b.logScope
    ensures CanonicalRowsShared(a, b) && CanonicalRowsShared(b, a)
  {
    hide Finished, HeadersKnown, AddedFrom, Reaches, Agrees, History, CanonicalRowsShared;
    FinishedReaches(a, la, job, target);
    FinishedReaches(b, lb, job, target);
    OneHistory(la, lb, job, target);
    FinishedAgrees(a, la, job, target);
    FinishedAgrees(b, lb, job, target);
    AgreeingTwins(a, la, b, lb, job.scanStart);
  }

  lemma AgreeingTwins(a: Db, la: Ledger, b: Db, lb: Ledger, scanStart: nat)
    requires Agrees(a, la, scanStart) && Agrees(b, lb, scanStart) && a.logScope == b.logScope
    requires History(la) == History(lb)
    ensures a.tables == b.tables && a.checkpoint == b.checkpoint
    ensures CanonicalRowsShared(a, b) && CanonicalRowsShared(b, a)
  {
    SameHistorySameCanon(la, lb, scanStart);
    SameHistorySameCanonicalRows(a, la, b, lb, scanStart);
  }

  lemma FinishedAgrees(db: Db, l: Ledger, job: Job, target: ReindexTarget)
    requires Finished(db, l, job, target)
    ensures Agrees(db, l, job.scanStart) && db.logScope == job.scope && db.projectorVersion == PROJECTOR_VERSION
    ensures db.status.Syncing? && db.reason.None?
  {
  }

  // ---- the command ----

  /** The target is the steady chain's block at its height. */
  predicate OnSteady(target: ReindexTarget, f: Chain) {
    target.number <= f.head && f.block(target.number).hash == target.hash
  }

  predicate Resolvable(m: Marker, from: nat, f: Chain) {
    m.recovery.Some? && m.recovery.value.from == from && OnSteady(m.recovery.value.target, f)
  }

  lemma SaneAnswers(chain: ChainReader, headerOf: Hash -> BlockHeader)
    requires chain.Sane(headerOf)
    ensures forall t, n :: chain.blockAt(t, n).Success? ==>
              chain.blockAt(t, n).value.number == n && headerOf(chain.blockAt(t, n).value.hash) == chain.blockAt(t, n).value
  {
  }

  /** resolveReindexOperationRecovery: a resumed operation keeps its target while the chain still has that block;
      a new one takes the eligible head, read twice more. */
  method ResolveRecovery(chain: ChainReader, config: Config, from: nat, existing: Option<Marker>, ghost headerOf: Hash -> BlockHeader,
                         ghost f: Chain)
    returns (r: Result<Recovery, MaintenanceError>)
    requires chain.Sane(headerOf)
    modifies chain
    ensures r.Success? ==>
              && r.value.from == from && chain.Reported(headerOf(r.value.target.hash), old(chain.clock), chain.clock)
              && headerOf(r.value.target.hash).number == r.value.target.number && headerOf(r.value.target.hash).hash == r.value.target.hash
              && if existing.Some? then existing.value.recovery == Some(r.value)
                 else WasEligible(chain, config.finality, config.depth, r.value.target.number, old(chain.clock), chain.clock)
    ensures old(chain.Responsive(f)) ==> chain.Responsive(f)
    ensures old(chain.Responsive(f)) && TargetReadable(config.finality, config.depth)
            && EligibleHeight(f, config.finality, config.depth).Some? && (existing.Some? ==> Resolvable(existing.value, from, f)) ==>
              && r.Success? && OnSteady(r.value.target, f)
              && (existing.None? ==> r.value.target.number == EligibleHeight(f, config.finality, config.depth).value)
  {
    hide WasEligible, ChainReader.Sane, ChainReader.ResponsiveFrom;
    var number;
    if existing.Some? {
      var recovery := existing.value.recovery;
      if recovery.None? || recovery.value.from != from {
        return Failure(MaintenanceIncomplete);
      }
      number := recovery.value.target.number;
    } else {
      var observed := ReadProjectionTarget(chain, config.finality, config.depth, headerOf, f);
      if observed.Failure? {
        return Failure(TargetUnreadable(observed.error));
      }
      if observed.value.eligibleHead.None? {
        return Failure(ReindexTargetNotAvailable);
      }
      number := observed.value.eligibleHead.value.number;
    }
    SaneAnswers(chain, headerOf);
    ghost var now := chain.clock;
    if existing.None? {
      EligibleWithin(chain, config.finality, config.depth, number, old(chain.clock), now, old(chain.clock), now + 2);
    }
    chain.SteadyAnswers(f, now, now, number);
    chain.SteadyAnswers(f, now, now + 1, number);
    chain.StaysResponsive(f, now, now + 1);
    chain.StaysResponsive(f, now, now + 2);
    var first := chain.GetBlock(number);
    if first.Failure? {
      return Failure(TargetUnreadable(ReadFailed(first.error)));
    }
    var confirmation := chain.GetBlock(number);
    if confirmation.Failure? {
      return Failure(TargetUnreadable(ReadFailed(confirmation.error)));
    }
    if first.value.hash != confirmation.value.hash {
      return Failure(ReindexTargetChanged);
    }
    if existing.Some? && confirmation.value.hash != existing.value.recovery.value.target.hash {
      return Failure(ReindexTargetChanged);
    }
    assert headerOf(confirmation.value.hash) == confirmation.value;
    return Success(Recovery(from, ReindexTarget(number, confirmation.value.hash)));
  }

  datatype BodyExit = BodyDone | BodyThrew(error: MaintenanceError) | BodyDied

  /** The same operation, with its stage, backup, phase or last error moved on. */
  predicate SameOperation(a: Marker, b: Marker) {
    b == a.(stage := b.stage, backupId := b.backupId, phase := b.phase, lastError := b.lastError)
  }

  /** A maintenance store over the environment's database. */
  ghost predicate Opened(env: Environment, store: Store, job: Job)
    reads env.database
  {
    && store.db == env.database && env.database.Valid() && env.database.scanStart == job.scanStart
    && store.logScope == job.scope && store.allowReindexRecovery
  }

  /** The database can be opened for this job, and what the job keeps of it lies on the chain. */
  ghost predicate Startable(db: Db, resumed: bool, l: Ledger, job: Job, f: Chain) {
    && (db.projectorVersion == PROJECTOR_VERSION || db.projectorVersion == "0")
    && (db.logScope == job.scope || job.from == job.scanStart)
    && if resumed then OnChain(l, f, job.scanStart)
       else if NeedsRefresh(db, job.scope) then job.from == job.scanStart
       else OnChain(l, f, job.scanStart)
  }

  lemma StartIsOnChain(db: Db, resumed: bool, l: Ledger, job: Job, f: Chain)
    requires Startable(db, resumed, l, job, f)
    ensures OnChain(EMPTY_LEDGER, f, job.scanStart)
    ensures resumed || !NeedsRefresh(db, job.scope) ==>
              OnChain(l, f, job.scanStart) && OnChain(Truncate(l, job.scanStart, job.from), f, job.scanStart)
  {
    EmptyOnChain(f, job.scanStart);
    if resumed || !NeedsRefresh(db, job.scope) {
      TruncatedOnChain(l, f, job.scanStart, job.from);
    }
  }

  lemma StatusKeepsStartable(a: Db, b: Db, resumed: bool, l: Ledger, job: Job, f: Chain)
    requires Startable(a, resumed, l, job, f) && StatusOnly(a, b)
    ensures Startable(b, resumed, l, job, f)
  {
    hide OnChain;
    if SourceMismatch(a) {
      StatusKeepsMismatch(a, b);
    }
    if SourceMismatch(b) {
      StatusKeepsMismatch(b, a);
    }
  }

  lemma CutStartable(a: Db, b: Db, l: Ledger, cut: Ledger, job: Job, f: Chain)
    requires Startable(a, false, l, job, f) && Cut(b, cut, job)
    requires cut == if NeedsRefresh(a, job.scope) then EMPTY_LEDGER else Truncate(l, job.scanStart, job.from)
    requires b.logScope == a.logScope && b.projectorVersion == a.projectorVersion
    ensures Startable(b, false, cut, job, f) && OnChain(cut, f, job.scanStart)
  {
    hide OnChain, SourceMismatch, HeadersKnown;
    StartIsOnChain(a, false, l, job, f);
    if b.logScope == job.scope {
      RepresentedSourceMatches(b, cut, job.scanStart);
    }
  }

  lemma GrowingStartable(db: Db, resumed: bool, l: Ledger, job: Job, target: nat, f: Chain)
    requires Growing(db, l, job, target) && OnChain(l, f, job.scanStart)
    ensures Startable(db, resumed, l, job, f)
  {
    hide OnChain, SourceMismatch, HeadersKnown, EventsFrom;
    RepresentedSourceMatches(db, l, job.scanStart);
  }

  /** The archive a resumed operation made is still there. */
  predicate BackupKnown(env: Environment)
    requires env.marker.Some?
    reads env
  {
    var m := env.marker.value;
    m.backupId.Some? ==> m.backupId.value in env.backups && env.backups[m.backupId.value] == m.operationId
  }

  /** Verifies the archive this operation made before, or makes one and records it. */
  method Archive(env: Environment) returns (r: BodyExit)
    requires env.marker.Some?
    modifies env
    ensures env.marker.Some? && SameOperation(old(env.marker).value, env.marker.value)
    ensures env.marker.value.phase == old(env.marker).value.phase
    ensures old(BackupKnown(env)) ==> BackupKnown(env)
    ensures r.BodyDone? ==> env.marker.value.backupId.Some? && BackupKnown(env)
    ensures old(env.lives) >= 2 && old(BackupKnown(env)) ==> r.BodyDone? && env.lives >= old(env.lives) - 2
    ensures env.lives <= old(env.lives)
  {
    var m := env.marker.value;
    if m.backupId.Some? {
      return if m.backupId.value !in env.backups || env.backups[m.backupId.value] != m.operationId then BodyThrew(BackupUnverified)
             else BodyDone;
    }
    var alive := env.Survives();
    if !alive {
      return BodyDied;
    }
    var id := env.NextId();
    env.backups := env.backups[id := m.operationId];
    alive := env.Survives();
    if !alive {
      return BodyDied;
    }
    env.marker := Some(m.(backupId := Some(id)));
    return BodyDone;
  }

  /** Archives the source first when it has to be deleted, records PREPARING, then cuts. */
  method CutSource(env: Environment, store: Store, ghost job: Job, ghost l: Ledger, ghost f: Chain)
    returns (r: BodyExit, ghost cut: Ledger)
    requires Opened(env, store, job) && (store.sourceScopeChanged <==> env.database.logScope != job.scope)
    requires env.marker.Some? && env.marker.value.recovery.Some? && env.marker.value.recovery.value.from == job.from
    requires env.marker.value.phase != Some(CatchingUp)
    requires Uncut(env.database.State(), l, job)
    modifies env, env.database
    ensures env.database.Valid()
    ensures env.marker.Some? && SameOperation(old(env.marker).value, env.marker.value) && env.marker.value.phase != Some(CatchingUp)
    ensures Uncut(env.database.State(), cut, job)
    ensures r.BodyDone? ==> Cut(env.database.State(), cut, job)
    ensures env.database.logScope == old(env.database.logScope)
    ensures old(env.database.status).RecoveryRequired? ==> env.database.status.RecoveryRequired?
    ensures r.BodyDone? ==>
              cut == if NeedsRefresh(old(env.database.State()), job.scope) then EMPTY_LEDGER else Truncate(l, job.scanStart, job.from)
    ensures env.database.projectorVersion == old(env.database.projectorVersion) && (old(BackupKnown(env)) ==> BackupKnown(env))
    ensures Startable(old(env.database.State()), false, l, job, f) ==>
              Startable(env.database.State(), false, cut, job, f) && (r.BodyDone? ==> OnChain(cut, f, job.scanStart))
    ensures old(env.lives) >= 4 && old(BackupKnown(env)) && (NeedsRefresh(old(env.database.State()), job.scope) ==> job.from == job.scanStart) ==>
              r.BodyDone? && env.lives >= old(env.lives) - 4
  {
    hide Uncut, Cut, PreviousCheckpoint, SourceMismatch, Orphan, Startable, OnChain;
    cut := l;
    ghost var before := env.database.State();
    var from := env.marker.value.recovery.value.from;
    var archived := false;
    var refresh := store.RequiresSourceRefresh();
    if refresh {
      r := Archive(env);
      if !r.BodyDone? {
        return r, l;
      }
      archived := true;
    }
    var alive := env.Survives();
    if !alive {
      return BodyDied, l;
    }
    env.marker := Some(env.marker.value.(phase := Some(Preparing)));
    alive := env.Survives();
    if !alive {
      return BodyDied, l;
    }
    assert env.database.State() == before;
    var error := store.PrepareForReindex(from, archived);
    if error.Some? {
      return BodyThrew(StoreRejected(error.value)), l;
    }
    if refresh {
      cut := EMPTY_LEDGER;
      DeletionCuts(before, l, job, true);
    } else {
      cut := Truncate(l, job.scanStart, job.from);
      ghost var previous :|
        PreviousCheckpoint(Orphan(before.blocks, from), from, previous) && env.database.State() == Rewound(before, true, from, previous);
      RewindCuts(before, l, job, previous, true);
    }
    CutIsUncut(env.database.State(), cut, job);
    if Startable(before, false, l, job, f) {
      CutStartable(before, env.database.State(), l, cut, job, f);
    }
    return BodyDone, cut;
  }

  lemma FreshlyGrowing(db: Db, l: Ledger, job: Job, target: nat)
    requires Growing(db, l, job, target)
    ensures Agrees(db, l, job.scanStart) && HeadersKnown(l, job.headerOf)
    ensures db.logScope == job.scope && db.projectorVersion == PROJECTOR_VERSION
    ensures (forall h <- l.canon :: h in l.archive)
  {
  }

  lemma NotRewound(db: Db, l: Ledger, job: Job, target: nat, resumed: bool)
    requires resumed ==> Growing(db, l, job, target)
    ensures resumed ==> Extends(l, l)
  {
  }

  lemma CutStays(db: Db, l: Ledger, job: Job, target: nat, resumed: bool)
    requires if resumed then Growing(db, l, job, target) else Cut(db, l, job)
    ensures if resumed then Growing(db, l, job, target) else Uncut(db, l, job)
  {
    if !resumed {
      CutIsUncut(db, l, job);
    }
  }

  lemma RebuildStep(before: Db, l: Ledger, job: Job, target: nat, resumed: bool, buildId: nat, error: Option<StoreError>, after: Db, f: Chain)
    requires if resumed then Growing(before, l, job, target) else Cut(before, l, job)
    requires exists rows :: ListsJournal(rows, before) && Outcome(after, error) == Rebuild(before, true, job.scope, job.scanStart, buildId, rows)
    ensures if resumed then error.None? else Uncut(after, l, job)
    ensures error.None? ==> Growing(after, l, job, target)
    ensures before.status.RecoveryRequired? ==> after.status.RecoveryRequired?
    ensures OnChain(l, f, job.scanStart) && ChainAccepted(f, job.scanStart) ==> error.None?
  {
    hide Growing, Cut, Uncut, Rebuild, ListsJournal, OnChain, ChainAccepted;
    var rows :| ListsJournal(rows, before) && Outcome(after, error) == Rebuild(before, true, job.scope, job.scanStart, buildId, rows);
    RebuildKeepsRest(before, job.scope, job.scanStart, rows, true, buildId);
    if resumed {
      RebuildKeepsGrowing(before, l, job, target, rows, true, buildId);
    } else {
      RebuildStartsGrowing(before, l, job, rows, true, buildId, target);
      if OnChain(l, f, job.scanStart) && ChainAccepted(f, job.scanStart) {
        RebuildOnChain(before, l, job, rows, buildId, f);
      }
    }
  }

  /** The projectors accept the kept history of an accepted chain. */
  lemma RebuildOnChain(db: Db, l: Ledger, job: Job, rows: seq<EventRow>, buildId: nat, f: Chain)
    requires Cut(db, l, job) && ListsJournal(rows, db) && OnChain(l, f, job.scanStart) && ChainAccepted(f, job.scanStart)
    ensures Rebuild(db, true, job.scope, job.scanStart, buildId, rows).error.None?
  {
    hide Rebuild, ListsJournal, WellFormed, BlocksRepresent, EventsRepresent;
    if db.logScope == job.scope {
      assert Replay(EMPTY_TABLES, AllEvents(ChainLogs(f, job.scanStart, |l.canon|))).Success?;
      RebuildRestoresAgreement(db, l, job.scanStart, rows, true, buildId);
    } else {
      EmptyRebuild(db, job.scope, job.scanStart, rows, true, buildId);
    }
  }

  lemma CompletionFinishes(db: Db, l: Ledger, job: Job, target: ReindexTarget, after: Db)
    requires Growing(db, l, job, target.number)
    requires Outcome(after, None) == JournalDatabase.CompleteReindexRecovery(db, true, target.number, target.hash)
    ensures Finished(after, l, job, target)
    ensures Growing(after, l, job, target.number)
  {
    StatusKeepsGrowing(db, after, l, job, target.number);
  }

  /** Everything a reindex meets from its rebuild on is in order: a steady chain the projectors accept, with the kept
      history and the target on it. */
  ghost predicate Steady(chain: ChainReader, config: Config, job: Job, l: Ledger, f: Chain, target: ReindexTarget) {
    && OnChain(l, f, job.scanStart) && ChainAccepted(f, job.scanStart) && LogsFixed(chain, f.eventsOf)
    && InReach(config, f, job.scanStart, target.number) && OnSteady(target, f)
  }

  lemma SmoothFromSteady(chain: ChainReader, db: Db, config: Config, job: Job, l: Ledger, f: Chain, target: ReindexTarget)
    requires Steady(chain, config, job, l, f, target) && Agrees(db, l, job.scanStart)
    ensures Smooth(chain, db, l, job.scanStart, true, f)
    ensures InReach(config.(maximumTarget := Some(target.number)), f, job.scanStart, target.number) && OnSteady(target, f)
  {
  }

  lemma CheckpointNumber(db: Db, l: Ledger, scanStart: nat)
    requires Represents(db, l, scanStart)
    ensures db.checkpoint == CheckpointOf(l, scanStart)
  {
  }

  /** A checkpoint at or above a target of the chain the index follows has the target below it. */
  lemma TargetIsCanonical(db: Db, l: Ledger, job: Job, f: Chain, target: ReindexTarget)
    requires Agrees(db, l, job.scanStart) && OnChain(l, f, job.scanStart) && OnSteady(target, f)
    ensures db.checkpoint.Some? ==>
              var cp := db.checkpoint.value;
              && HasCanonicalBlock(db, cp.number, cp.hash)
              && (job.scanStart <= target.number <= cp.number ==> HasCanonicalBlock(db, target.number, target.hash))
  {
    hide Agrees, Represents, OnChain;
    AgreesRepresents(db, l, job.scanStart);
    CheckpointNumber(db, l, job.scanStart);
    if db.checkpoint.Some? {
      CheckpointHeader(db, l, job.scanStart);
      if job.scanStart <= target.number <= db.checkpoint.value.number {
        CanonAt(db, l, job.scanStart, target.number - job.scanStart);
        TopOnChain(l, f, job.scanStart, target.number - job.scanStart);
      }
    }
  }

  lemma RebuildStartable(before: Db, resumed: bool, l: Ledger, job: Job, target: nat, buildId: nat, error: Option<StoreError>, after: Db, f: Chain)
    requires exists rows :: ListsJournal(rows, before) && Outcome(after, error) == Rebuild(before, true, job.scope, job.scanStart, buildId, rows)
    requires error.None? ==> Growing(after, l, job, target)
    ensures OnChain(l, f, job.scanStart) && Startable(before, resumed, l, job, f) ==>
              Startable(after, resumed, l, job, f) && (error.None? ==> Startable(after, true, l, job, f))
  {
    hide Growing, Rebuild, ListsJournal, OnChain, Startable;
    var rows :| ListsJournal(rows, before) && Outcome(after, error) == Rebuild(before, true, job.scope, job.scanStart, buildId, rows);
    RebuildKeepsRest(before, job.scope, job.scanStart, rows, true, buildId);
    if OnChain(l, f, job.scanStart) && Startable(before, resumed, l, job, f) {
      if error.None? {
        GrowingStartable(after, resumed, l, job, target, f);
        GrowingStartable(after, true, l, job, target, f);
      } else {
        StatusKeepsStartable(before, after, resumed, l, job, f);
      }
    }
  }

  /** Rebuilds the projections and records CATCHING_UP. */
  method RebuildAndRecord(env: Environment, store: Store, ghost job: Job, ghost l: Ledger, ghost f: Chain) returns (r: BodyExit)
    requires Opened(env, store, job)
    requires env.marker.Some? && env.marker.value.recovery.Some?
    requires if CatchesUp(env.marker) then Growing(env.database.State(), l, job, env.marker.value.recovery.value.target.number)
             else Cut(env.database.State(), l, job)
    modifies env, env.database
    ensures env.database.Valid()
    ensures env.marker.Some? && SameOperation(old(env.marker).value, env.marker.value)
    ensures if CatchesUp(env.marker) then Growing(env.database.State(), l, job, env.marker.value.recovery.value.target.number)
            else !CatchesUp(old(env.marker)) && env.marker == old(env.marker) && Uncut(env.database.State(), l, job)
    ensures old(CatchesUp(env.marker)) ==> CatchesUp(env.marker)
    ensures r.BodyDone? ==> CatchesUp(env.marker)
    ensures old(env.database.status).RecoveryRequired? ==> env.database.status.RecoveryRequired?
    ensures env.backups == old(env.backups) && env.marker.value.backupId == old(env.marker).value.backupId
    ensures OnChain(l, f, job.scanStart) && Startable(old(env.database.State()), old(CatchesUp(env.marker)), l, job, f) ==>
              Startable(env.database.State(), CatchesUp(env.marker), l, job, f)
    ensures old(env.lives) >= 2 && OnChain(l, f, job.scanStart) && ChainAccepted(f, job.scanStart) ==>
              r.BodyDone? && env.lives >= old(env.lives) - 2
  {
    hide Growing, Cut, Uncut, Rebuild, ListsJournal, OnChain, ChainAccepted, Startable;
    ghost var resumed := CatchesUp(env.marker);
    ghost var before := env.database.State();
    var m := env.marker.value;
    ghost var target := m.recovery.value.target.number;
    var alive := env.Survives();
    if !alive {
      CutStays(before, l, job, target, resumed);
      return BodyDied;
    }
    var buildId := env.NextId();
    var error := store.RebuildFromJournal(buildId);
    ghost var rebuilt := env.database.State();
    RebuildStep(before, l, job, target, resumed, buildId, error, rebuilt, f);
    RebuildStartable(before, resumed, l, job, target, buildId, error, rebuilt, f);
    if error.Some? {
      return BodyThrew(StoreRejected(error.value));
    }
    alive := env.Survives();
    if !alive {
      return BodyDied;
    }
    env.marker := Some(m.(phase := Some(CatchingUp)));
    return BodyDone;
  }

  /** Catches up to the target and completes the recovery: the history only grows. */
  method CatchUpAndComplete(env: Environment, chain: ChainReader, store: Store, config: Config, ghost job: Job, ghost l: Ledger, ghost f: Chain)
    returns (r: BodyExit, ghost grown: Ledger)
    requires chain.Sane(job.headerOf)
    requires Opened(env, store, job) && config.startBlock == job.scanStart
    requires CatchesUp(env.marker) && env.marker.value.recovery.Some?
    requires Growing(env.database.State(), l, job, env.marker.value.recovery.value.target.number)
    modifies env`lives, env.database, chain
    ensures env.database.Valid() && Extends(l, grown)
    ensures LogsFixed(chain, job.eventsOf) && AddedFrom(l, job) ==> AddedFrom(grown, job)
    ensures Growing(env.database.State(), grown, job, env.marker.value.recovery.value.target.number)
    ensures r.BodyDone? ==> Finished(env.database.State(), grown, job, env.marker.value.recovery.value.target)
    ensures r.BodyDone? || (old(env.database.status).RecoveryRequired? ==> env.database.status.RecoveryRequired?)
    ensures chain.Faithful(f) && LogsFixed(chain, f.eventsOf) && OnChain(l, f, job.scanStart) ==>
              Startable(env.database.State(), true, grown, job, f)
    ensures old(env.lives) >= 1 && old(chain.Responsive(f)) && Steady(chain, config, job, l, f, env.marker.value.recovery.value.target) ==>
              r.BodyDone? && env.lives >= old(env.lives) - 1
  {
    hide Growing, Agrees, GrownTo, HeadersKnown, LogsFixed, Extends, OnChain, Smooth, ChainReader.Responsive, ChainReader.Sane,
         Represents, Steady, ChainReader.Faithful, Startable, AddedFrom, EventsFrom;
    var target := env.marker.value.recovery.value.target;
    ghost var before := env.database.State();
    FreshlyGrowing(before, l, job, target.number);
    ghost var steady := chain.Responsive(f) && Steady(chain, config, job, l, f, target);
    if steady {
      SmoothFromSteady(chain, before, config, job, l, f, target);
    }
    ghost var added: seq<BlockLog>;
    var failed: Option<CatchUpError>;
    failed, grown, added := CatchUp.CatchUp(chain, store, config.(maximumTarget := Some(target.number)), target.number,
                                            job.headerOf, job.eventsOf, l, f);
    GrowsOn(before, l, job, target.number, added, grown, env.database.State());
    AddedGrows(l, job, target.number, added, grown);
    if OnChain(grown, f, job.scanStart) {
      GrowingStartable(env.database.State(), true, grown, job, target.number, f);
    }
    if failed.Some? {
      return if Died(failed.value) then BodyDied else BodyThrew(CatchUpFailed(failed.value)), grown;
    }
    if steady {
      TargetIsCanonical(env.database.State(), grown, job, f, target);
    }
    var checkpoint := store.ReadCheckpoint();
    if checkpoint.Failure? || checkpoint.value.None? || checkpoint.value.value.number < target.number
       || !HasCanonicalBlock(env.database.State(), target.number, target.hash) {
      return BodyThrew(CatchUpIncomplete), grown;
    }
    var alive := env.Survives();
    if !alive {
      return BodyDied, grown;
    }
    ghost var caught := env.database.State();
    var error := store.CompleteReindexRecovery(target.number, target.hash);
    assert error.None?;
    CompletionFinishes(caught, grown, job, target, env.database.State());
    if Startable(caught, true, grown, job, f) {
      StatusKeepsStartable(caught, env.database.State(), true, grown, job, f);
    }
    return BodyDone, grown;
  }

  /** The rest of the run once the source is cut, or at once when resumed. Once CATCHING_UP is recorded the history
      only grows. */
  method RebuildAndCatchUp(env: Environment, chain: ChainReader, store: Store, config: Config, ghost job: Job, ghost l: Ledger, ghost f: Chain)
    returns (r: BodyExit, ghost grown: Ledger)
    requires chain.Sane(job.headerOf)
    requires Opened(env, store, job) && config.startBlock == job.scanStart
    requires env.marker.Some? && env.marker.value.recovery.Some?
    requires if CatchesUp(env.marker) then Growing(env.database.State(), l, job, env.marker.value.recovery.value.target.number)
             else Cut(env.database.State(), l, job)
    modifies env, env.database, chain
    ensures env.database.Valid()
    ensures env.marker.Some? && SameOperation(old(env.marker).value, env.marker.value)
    ensures if CatchesUp(env.marker) then Growing(env.database.State(), grown, job, env.marker.value.recovery.value.target.number)
            else !CatchesUp(old(env.marker)) && env.marker == old(env.marker) && Uncut(env.database.State(), grown, job)
    ensures old(CatchesUp(env.marker)) ==> Extends(l, grown)
    ensures LogsFixed(chain, job.eventsOf) && Sourced(old(env.marker), l, job) ==> Sourced(env.marker, grown, job)
    ensures r.BodyDone? ==> CatchesUp(env.marker) && Finished(env.database.State(), grown, job, env.marker.value.recovery.value.target)
    ensures r.BodyDone? || (old(env.database.status).RecoveryRequired? ==> env.database.status.RecoveryRequired?)
    ensures env.backups == old(env.backups) && env.marker.value.backupId == old(env.marker).value.backupId
    ensures chain.Faithful(f) && LogsFixed(chain, f.eventsOf) && OnChain(l, f, job.scanStart)
            && Startable(old(env.database.State()), old(CatchesUp(env.marker)), l, job, f) ==>
              Startable(env.database.State(), CatchesUp(env.marker), grown, job, f)
    ensures old(env.lives) >= 3 && old(chain.Responsive(f)) && Steady(chain, config, job, l, f, old(env.marker).value.recovery.value.target) ==>
              r.BodyDone? && env.lives >= old(env.lives) - 3
  {
    hide Growing, Cut, Uncut, LogsFixed, Extends, Finished, ChainReader.Responsive, ChainReader.Sane, OnChain, ChainAccepted,
         ChainReader.Faithful, Startable, AddedFrom;
    grown := l;
    if !CatchesUp(env.marker) {
      CutIsSourced(env.database.State(), l, job);
    }
    NotRewound(env.database.State(), l, job, env.marker.value.recovery.value.target.number, CatchesUp(env.marker));
    r := RebuildAndRecord(env, store, job, l, f);
    if r.BodyDone? {
      r, grown := CatchUpAndComplete(env, chain, store, config, job, l, f);
    }
  }

  // ---- attempts ----

  /** The job as the database stands before an attempt. */
  ghost predicate Attemptable(env: Environment, scope: string, config: Config, job: Job)
    reads env.database
  {
    && env.database.Valid() && env.database.scanStart == job.scanStart && config.startBlock == job.scanStart
    && scope == job.scope && job.from >= job.scanStart
  }

  lemma Opens(marker: Option<Marker>, db: Db, l: Ledger, job: Job)
    requires Resumable(marker, db, l, job)
    ensures CatchesUp(marker) ==> Growing(db, l, job, marker.value.recovery.value.target.number) && db.logScope == job.scope
    ensures !CatchesUp(marker) ==> Uncut(db, l, job)
    ensures marker.Some? ==> MarkerFits(marker.value, job)
  {
  }

  /** Taking a marker up, or over, keeps the invariant. */
  lemma BegunIsResumable(old_: Option<Marker>, taken: bool, owner: Owner, recovery: Recovery, id: nat, db: Db, l: Ledger, job: Job, stage: Stage,
                         lastError: Option<MaintenanceError>)
    requires Resumable(old_, db, l, job) && recovery.from == job.from
    requires old_.Some? && !taken ==> old_.value.recovery == Some(recovery) && old_.value.operation == ReindexProjection
    requires taken ==> old_.Some? && old_.value.operation.RebuildProjection?
    ensures var m := PreparedMarker(old_, taken, ReindexProjection, owner, Some(recovery), id).(stage := stage, lastError := lastError);
            Resumable(Some(m), db, l, job) && (CatchesUp(Some(m)) <==> CatchesUp(old_))
  {
  }

  /** Writing the marker as FAILED, and a raised barrier, keep it too. */
  lemma FailureIsResumable(m: Marker, m': Marker, a: Db, b: Db, l: Ledger, job: Job)
    requires Resumable(Some(m), a, l, job) && StatusOnly(a, b)
    requires m' == m.(stage := m'.stage, lastError := m'.lastError)
    ensures Resumable(Some(m'), b, l, job)
  {
    hide Growing, Uncut;
    if CatchesUp(Some(m)) {
      StatusKeepsGrowing(a, b, l, job, m.recovery.value.target.number);
    } else {
      StatusKeepsUncut(a, b, l, job);
    }
  }

  lemma GrowingIsResumable(marker: Option<Marker>, db: Db, l: Ledger, job: Job)
    requires marker.Some? && MarkerFits(marker.value, job)
    requires if CatchesUp(marker) then marker.value.recovery.Some? && Growing(db, l, job, marker.value.recovery.value.target.number)
             else Uncut(db, l, job)
    ensures Resumable(marker, db, l, job)
  {
  }

  /** A finished reindex whose marker is still there can be resumed, and leaves no barrier. */
  lemma FinishedIsResumable(m: Marker, m': Marker, db: Db, l: Ledger, job: Job)
    requires MarkerFits(m, job) && CatchesUp(Some(m)) && m.recovery.Some? && Finished(db, l, job, m.recovery.value.target)
    requires m' == m.(stage := m'.stage, lastError := m'.lastError)
    ensures Resumable(Some(m'), db, l, job) && Discharged(db)
  {
    hide Growing;
  }

  /** The chain is one the projectors accept, whose logs are fixed, and has the marker's target in reach. */
  ghost predicate OnSteadyRun(chain: ChainReader, config: Config, job: Job, f: Chain, marker: Option<Marker>) {
    && ChainAccepted(f, job.scanStart) && LogsFixed(chain, f.eventsOf)
    && marker.Some? && marker.value.recovery.Some?
    && InReach(config, f, job.scanStart, marker.value.recovery.value.target.number) && OnSteady(marker.value.recovery.value.target, f)
  }

  /** The run callback: opens the store for maintenance, cuts unless resumed, rebuilds and catches up. */
  method RunBody(env: Environment, chain: ChainReader, config: Config, scope: string, ghost job: Job, ghost l: Ledger, ghost f: Chain)
    returns (r: BodyExit, ghost after: Ledger)
    requires chain.Sane(job.headerOf)
    requires Attemptable(env, scope, config, job)
    requires env.marker.Some? && env.marker.value.operation.ReindexProjection?
    requires Resumable(env.marker, env.database.State(), l, job)
    modifies env, env.database, chain
    ensures env.database.Valid()
    ensures env.marker.Some? && SameOperation(old(env.marker).value, env.marker.value)
    ensures r.BodyDone? ==>
              && MarkerFits(env.marker.value, job) && CatchesUp(env.marker)
              && Finished(env.database.State(), after, job, env.marker.value.recovery.value.target)
    ensures !r.BodyDone? ==> Resumable(env.marker, env.database.State(), after, job)
    ensures old(CatchesUp(env.marker)) ==> CatchesUp(env.marker) && Extends(l, after)
    ensures LogsFixed(chain, job.eventsOf) && Sourced(old(env.marker), l, job) ==> Sourced(env.marker, after, job)
    ensures r.BodyDone? || (old(env.database.status).RecoveryRequired? ==> env.database.status.RecoveryRequired?)
    ensures old(BackupKnown(env)) ==> BackupKnown(env)
    ensures chain.Faithful(f) && LogsFixed(chain, f.eventsOf)
            && Startable(old(env.database.State()), old(CatchesUp(env.marker)), l, job, f) ==>
              Startable(env.database.State(), CatchesUp(env.marker), after, job, f)
    ensures old(env.lives) >= 7 && old(chain.Responsive(f)) && old(BackupKnown(env))
            && Startable(old(env.database.State()), old(CatchesUp(env.marker)), l, job, f)
            && OnSteadyRun(chain, config, job, f, old(env.marker)) ==>
              r.BodyDone? && env.lives >= old(env.lives) - 7
  {
    hide Growing, Uncut, Cut, Finished, Extends, LogsFixed, Resumable, SourceMismatch, OnChain, ChainAccepted, ChainReader.Responsive,
         ChainReader.Sane, ChainReader.Faithful, AddedFrom;
    after := l;
    ghost var before := env.database.State();
    Opens(env.marker, before, l, job);
    if Startable(before, CatchesUp(env.marker), l, job, f) {
      StartIsOnChain(before, CatchesUp(env.marker), l, job, f);
    }
    var m := env.marker.value;
    var resumes := m.phase == Some(CatchingUp);
    NotRewound(before, l, job, m.recovery.value.target.number, resumes);
    var from := m.recovery.value.from;
    var open := Store.Open(env.database, scope, true, {"0"}, from == env.database.scanStart, true);
    if open.Failure? {
      return BodyThrew(ContractUnsupported(open.error)), l;
    }
    var store := open.value;
    if !resumes {
      r, after := CutSource(env, store, job, l, f);
      if !r.BodyDone? {
        GrowingIsResumable(env.marker, env.database.State(), after, job);
        return;
      }
    }
    r, after := RebuildAndCatchUp(env, chain, store, config, job, after, f);
    if !r.BodyDone? {
      GrowingIsResumable(env.marker, env.database.State(), after, job);
    }
  }

  /** The marker left behind is one this attempt takes up: its own, with its target still on the chain and its
      archive still there, or that of a rebuild it takes over. */
  ghost predicate TakenUp(env: Environment, config: Config, owner: Owner, job: Job, f: Chain)
    requires env.marker.Some?
    reads env
  {
    MarkerTakenUp(env.marker.value, env.backups, config, owner, job, f)
  }

  predicate MarkerTakenUp(m: Marker, backups: map<nat, nat>, config: Config, owner: Owner, job: Job, f: Chain) {
    && m.owner == owner
    && if TakesOver(m, ReindexProjection, job.from == job.scanStart) then m.backupId.None?
       else
         && m.operation.ReindexProjection? && Resolvable(m, job.from, f)
         && (m.backupId.Some? ==> m.backupId.value in backups && backups[m.backupId.value] == m.operationId)
         && InReach(config, f, job.scanStart, m.recovery.value.target.number)
  }

  /** An attempt would take up what is there: the marker is its own and what the job keeps lies on the chain. */
  ghost predicate Ready(env: Environment, config: Config, owner: Owner, job: Job, l: Ledger, f: Chain)
    reads env, env.database
  {
    && (env.marker.Some? ==> TakenUp(env, config, owner, job, f))
    && Startable(env.database.State(), CatchesUp(env.marker), l, job, f)
  }

  /** The settings fit a chain that does not change, which is past the scan start whenever it is read. */
  ghost predicate Suited(chain: ChainReader, config: Config, job: Job, f: Chain) {
    && chain.Faithful(f) && LogsFixed(chain, f.eventsOf) && Usable(config, job, f)
    && forall n, lo, hi | WasEligible(chain, config.finality, config.depth, n, lo, hi) :: job.scanStart <= n
  }

  predicate Usable(config: Config, job: Job, f: Chain) {
    && TargetReadable(config.finality, config.depth) && EligibleHeight(f, config.finality, config.depth).Some?
    && InReach(config, f, job.scanStart, EligibleHeight(f, config.finality, config.depth).value)
  }

  lemma EligibleInReach(chain: ChainReader, config: Config, job: Job, f: Chain, n: nat, lo: nat, hi: nat)
    requires Suited(chain, config, job, f) && WasEligible(chain, config.finality, config.depth, n, lo, hi)
    ensures InReach(config, f, job.scanStart, n) && n <= f.head
  {
  }

  /** A target read from such a chain is a block of it. */
  lemma ReadTargetIsOnSteady(chain: ChainReader, job: Job, f: Chain, target: ReindexTarget, lo: nat, hi: nat)
    requires chain.Faithful(f) && chain.Reported(job.headerOf(target.hash), lo, hi) && target.number <= f.head
    requires job.headerOf(target.hash).number == target.number && job.headerOf(target.hash).hash == target.hash
    ensures OnSteady(target, f)
  {
  }

  /** Nothing but a crash stands in the way of an attempt. */
  ghost predicate Unhindered(env: Environment, chain: ChainReader, config: Config, owner: Owner, job: Job, l: Ledger, f: Chain)
    reads env, env.database
  {
    && env.Healthy() && ChainAccepted(f, job.scanStart) && LogsFixed(chain, f.eventsOf)
    && Usable(config, job, f) && Ready(env, config, owner, job, l, f)
  }

  /** A reindex that already had a marker keeps the target it recorded. */
  predicate OwnTarget(marker: Option<Marker>, job: Job, target: ReindexTarget) {
    marker.Some? && marker.value.operation.ReindexProjection? ==> marker.value.recovery == Some(Recovery(job.from, target))
  }

  datatype Taken = NotTaken(exit: Exit) | Took(barrier: Option<Option<string>>)

  datatype Resolution = Unresolved(exit: Exit) | Resolved(taken: bool, recovery: Recovery)

  /** Whose marker is it, and which target is it for? Nothing is written yet. */
  method Resolve(env: Environment, chain: ChainReader, config: Config, owner: Owner, ghost job: Job, from: nat, ghost f: Chain)
    returns (r: Resolution)
    requires chain.Sane(job.headerOf) && env.database.scanStart == job.scanStart && from == job.from
    requires env.marker.Some? ==> MarkerFits(env.marker.value, job)
    modifies chain
    ensures r.Unresolved? ==> !r.exit.Done?
    ensures r.Resolved? ==>
              && r.recovery.from == job.from
              && (r.taken ==> env.marker.Some? && env.marker.value.operation.RebuildProjection?)
              && (env.marker.Some? && !r.taken ==>
                    env.marker.value.recovery == Some(r.recovery) && env.marker.value.operation.ReindexProjection?)
    ensures Suited(chain, config, job, f) && (env.marker.Some? ==> TakenUp(env, config, owner, job, f)) && r.Resolved? ==>
              OnSteady(r.recovery.target, f) && InReach(config, f, job.scanStart, r.recovery.target.number)
    ensures old(chain.Responsive(f)) ==> chain.Responsive(f)
    ensures old(chain.Responsive(f)) && Usable(config, job, f) && (env.marker.Some? ==> TakenUp(env, config, owner, job, f)) ==>
              r.Resolved? && OnSteady(r.recovery.target, f) && InReach(config, f, job.scanStart, r.recovery.target.number)
  {
    hide LogsFixed, ChainReader.Responsive, ChainReader.Sane, ChainReader.Faithful, WasEligible, OnSteady;
    var taken := CheckOwner(env, ReindexProjection, owner, from == env.database.scanStart);
    if taken.Failure? {
      return Unresolved(Threw(taken.error));
    }
    var resolved := ResolveRecovery(chain, config, from, if taken.value then None else env.marker, job.headerOf, f);
    if resolved.Failure? {
      return Unresolved(if resolved.error == TargetUnreadable(ReadFailed(Killed)) then Crashed else Threw(resolved.error));
    }
    ghost var target := resolved.value.target;
    if Suited(chain, config, job, f) && (env.marker.None? || taken.value) {
      EligibleInReach(chain, config, job, f, target.number, old(chain.clock), chain.clock);
      ReadTargetIsOnSteady(chain, job, f, target, old(chain.clock), chain.clock);
    }
    return Resolved(taken.value, resolved.value);
  }

  /** Checks whose marker is there, resolves the target and writes the marker, before anything else is touched. */
  method TakeUp(env: Environment, chain: ChainReader, config: Config, owner: Owner, ghost job: Job, from: nat, ghost l: Ledger, ghost f: Chain)
    returns (r: Taken, ghost target: ReindexTarget)
    requires chain.Sane(job.headerOf)
    requires env.database.Valid() && env.database.scanStart == job.scanStart && from == job.from
    requires Resumable(env.marker, env.database.State(), l, job)
    modifies env, chain
    ensures Resumable(env.marker, env.database.State(), l, job)
    ensures CatchesUp(env.marker) <==> old(CatchesUp(env.marker))
    ensures old(env.marker).Some? ==> env.marker.Some?
    ensures old(env.marker).Some? && old(env.marker).value.operation.ReindexProjection? ==>
              env.marker.value.operation.ReindexProjection? && env.marker.value.recovery == old(env.marker).value.recovery
    ensures r.NotTaken? ==> !r.exit.Done?
    ensures r.Took? ==>
              && r.barrier == Barrier(env.database.State())
              && env.marker.Some? && env.marker.value.operation.ReindexProjection? && env.marker.value.recovery == Some(Recovery(job.from, target))
    ensures Suited(chain, config, job, f) && old(Ready(env, config, owner, job, l, f)) ==> Ready(env, config, owner, job, l, f)
    ensures old(chain.Responsive(f)) ==> chain.Responsive(f)
    ensures old(env.lives) >= 2 && old(chain.Responsive(f)) && old(Unhindered(env, chain, config, owner, job, l, f)) ==>
              && r.Took? && env.lives >= old(env.lives) - 2
              && BackupKnown(env) && OnSteadyRun(chain, config, job, f, env.marker)
  {
    hide Growing, Uncut, LogsFixed, Resumable, SourceMismatch, OnChain, ChainAccepted, ChainReader.Responsive, ChainReader.Sane,
         ChainReader.Faithful, WasEligible, Startable, InReach, OnSteady, TargetReadable, EligibleHeight, Represents, Agrees, NeedsRefresh;
    target := ReindexTarget(0, "");
    ghost var before := env.database.State();
    Opens(env.marker, before, l, job);
    var resolved := Resolve(env, chain, config, owner, job, from, f);
    if resolved.Unresolved? {
      return NotTaken(resolved.exit), target;
    }
    var recovery := resolved.recovery;
    target := recovery.target;
    ghost var existing := env.marker;
    var begun := Begin(env, ReindexProjection, owner, Some(recovery), resolved.taken);
    forall id, stage, lastError
      ensures var m := PreparedMarker(existing, resolved.taken, ReindexProjection, owner, Some(recovery), id)
                       .(stage := stage, lastError := lastError);
              Resumable(Some(m), before, l, job) && (CatchesUp(Some(m)) <==> CatchesUp(existing))
    {
      BegunIsResumable(existing, resolved.taken, owner, recovery, id, before, l, job, stage, lastError);
    }
    return match begun
      case Refused(error) => NotTaken(Threw(error))
      case BeginFailed(error) => NotTaken(Threw(error))
      case BeginCrashed => NotTaken(Crashed)
      case Began(barrier) => Took(barrier), target;
  }

  /** Runs the body under its marker, and ends the attempt. */
  method RunAndFinish(env: Environment, chain: ChainReader, config: Config, owner: Owner, scope: string,
                      barrier: Option<Option<string>>, ghost job: Job, ghost l: Ledger, ghost f: Chain)
    returns (exit: Exit, ghost after: Ledger)
    requires chain.Sane(job.headerOf)
    requires Attemptable(env, scope, config, job) && barrier == Barrier(env.database.State())
    requires env.marker.Some? && env.marker.value.operation.ReindexProjection?
    requires Resumable(env.marker, env.database.State(), l, job)
    modifies env, env.database, chain
    ensures env.database.Valid()
    ensures exit.Done? ==>
              env.marker == None && old(env.marker).value.recovery.Some?
              && Finished(env.database.State(), after, job, old(env.marker).value.recovery.value.target)
    ensures !exit.Done? ==>
              Resumable(env.marker, env.database.State(), after, job) && env.marker.Some?
              && SameOperation(old(env.marker).value, env.marker.value)
    ensures old(CatchesUp(env.marker)) ==> Extends(l, after) && (!exit.Done? ==> CatchesUp(env.marker))
    ensures LogsFixed(chain, job.eventsOf) && Sourced(old(env.marker), l, job) ==>
              if exit.Done? then AddedFrom(after, job) else Sourced(env.marker, after, job)
    ensures barrier.Some? ==> env.database.status.RecoveryRequired? || Discharged(env.database.State())
    ensures old(env.lives) >= 8 && old(chain.Responsive(f)) && old(BackupKnown(env))
            && Startable(old(env.database.State()), old(CatchesUp(env.marker)), l, job, f)
            && OnSteadyRun(chain, config, job, f, old(env.marker)) ==>
              exit.Done?
    ensures Suited(chain, config, job, f) && old(Ready(env, config, owner, job, l, f)) && !exit.Done? ==>
              Ready(env, config, owner, job, after, f)
  {
    hide Growing, Uncut, Finished, Extends, LogsFixed, Resumable, SourceMismatch, OnChain, ChainAccepted, ChainReader.Responsive,
         ChainReader.Sane, ChainReader.Faithful, WasEligible, Startable, OnSteadyRun, AddedFrom;
    Opens(env.marker, env.database.State(), l, job);
    var body: BodyExit;
    body, after := RunBody(env, chain, config, scope, job, l, f);
    if body.BodyDied? {
      return Crashed, after;
    }
    ghost var left, state := env.marker.value, env.database.State();
    if body.BodyThrew? {
      exit := Fail(env, barrier, body.error);
      FailureIsResumable(left, env.marker.value, state, env.database.State(), after, job);
      if Startable(state, CatchesUp(Some(left)), after, job, f) {
        StatusKeepsStartable(state, env.database.State(), CatchesUp(Some(left)), after, job, f);
      }
      return;
    }
    FinishedIsResumable(left, left, state, after, job);
    exit := Finish(env, barrier);
    if !exit.Done? {
      FinishedIsResumable(left, env.marker.value, state, after, job);
    }
  }

  /** One attempt at the reindex, from the marker check to the marker's removal, dying at any durable write or
      chain read. Unless it completes, a later attempt can resume from what it left; once CATCHING_UP is recorded
      nothing is rewound; a barrier it met is discharged or still raised. On a chain that does not change, whatever
      reads failed before, an attempt that meets neither a crash nor a failing read completes. */
  method Attempt(env: Environment, chain: ChainReader, config: Config, owner: Owner, scope: string, ghost job: Job, from: nat, ghost l: Ledger,
                 ghost f: Chain)
    returns (exit: Exit, ghost after: Ledger, ghost target: ReindexTarget)
    requires chain.Sane(job.headerOf)
    requires Attemptable(env, scope, config, job) && from == job.from
    requires Resumable(env.marker, env.database.State(), l, job)
    modifies env, env.database, chain
    ensures env.database.Valid()
    ensures exit.Done? ==> env.marker == None && Finished(env.database.State(), after, job, target)
    ensures exit.Done? ==> OwnTarget(old(env.marker), job, target)
    ensures !exit.Done? ==> Resumable(env.marker, env.database.State(), after, job)
    ensures !exit.Done? && old(env.marker).Some? ==> env.marker.Some?
    ensures !exit.Done? && old(env.marker).Some? && old(env.marker).value.operation.ReindexProjection? ==>
              env.marker.value.operation.ReindexProjection? && env.marker.value.recovery == old(env.marker).value.recovery
    ensures old(CatchesUp(env.marker)) ==> Extends(l, after) && (!exit.Done? ==> CatchesUp(env.marker))
    ensures LogsFixed(chain, job.eventsOf) && Sourced(old(env.marker), l, job) ==>
              if exit.Done? then AddedFrom(after, job) else Sourced(env.marker, after, job)
    ensures old(env.database.status).RecoveryRequired? ==>
              env.database.status.RecoveryRequired? || Discharged(env.database.State())
    ensures old(env.lives) >= 10 && old(chain.Responsive(f)) && old(Unhindered(env, chain, config, owner, job, l, f)) ==> exit.Done?
    ensures Suited(chain, config, job, f) && old(Ready(env, config, owner, job, l, f)) && !exit.Done? ==>
              Ready(env, config, owner, job, after, f)
  {
    hide Growing, Uncut, Finished, Extends, LogsFixed, Resumable, ChainAccepted, ChainReader.Responsive, ChainReader.Sane, Suited,
         Startable, OnSteadyRun, MarkerTakenUp, AddedFrom;
    after := l;
    ghost var before := env.database.State();
    Opens(env.marker, before, l, job);
    NotRewound(before, l, job, if CatchesUp(env.marker) then env.marker.value.recovery.value.target.number else 0, CatchesUp(env.marker));
    var taken;
    taken, target := TakeUp(env, chain, config, owner, job, from, l, f);
    if taken.NotTaken? {
      return taken.exit, l, target;
    }
    exit, after := RunAndFinish(env, chain, config, owner, scope, taken.barrier, job, l, f);
  }

  lemma ExtendsOn(a: Ledger, b: Ledger, c: Ledger)
    requires Extends(a, b) && Extends(b, c)
    ensures Extends(a, c)
  {
  }

  /** Any number of attempts, each dying after its own budget of durable writes or at any chain read. A schedule
      that completes ends finished, at the target recorded by the attempt it resumed; one that has not completed
      can still be resumed; on a chain that does not change it is ready for an attempt that completes. */
  method RunSchedule(env: Environment, chain: ChainReader, config: Config, owner: Owner, scope: string, ghost job: Job,
                     from: nat, budgets: seq<nat>, ghost l: Ledger, ghost f: Chain)
    returns (done: bool, ghost after: Ledger, ghost target: ReindexTarget)
    requires chain.Sane(job.headerOf)
    requires Attemptable(env, scope, config, job) && from == job.from
    requires Resumable(env.marker, env.database.State(), l, job)
    modifies env, env.database, chain
    ensures env.database.Valid()
    ensures done ==> env.marker == None && Finished(env.database.State(), after, job, target) && OwnTarget(old(env.marker), job, target)
    ensures !done ==> Resumable(env.marker, env.database.State(), after, job)
    ensures old(CatchesUp(env.marker)) ==> Extends(l, after)
    ensures LogsFixed(chain, job.eventsOf) && Sourced(old(env.marker), l, job) ==>
              if done then AddedFrom(after, job) else Sourced(env.marker, after, job)
    ensures !done && Suited(chain, config, job, f) && old(Ready(env, config, owner, job, l, f)) ==> Ready(env, config, owner, job, after, f)
  {
    hide Growing, Uncut, Finished, Extends, LogsFixed, Resumable, Suited, Startable, MarkerTakenUp, ChainReader.Sane, AddedFrom;
    ghost var ready := Suited(chain, config, job, f) && Ready(env, config, owner, job, l, f);
    done, after, target := false, l, ReindexTarget(0, "");
    ghost var first := env.marker;
    Opens(first, env.database.State(), l, job);
    NotRewound(env.database.State(), l, job, if CatchesUp(first) then first.value.recovery.value.target.number else 0, CatchesUp(first));
    for i := 0 to |budgets|
      invariant env.database.Valid() && Resumable(env.marker, env.database.State(), after, job)
      invariant CatchesUp(first) ==> CatchesUp(env.marker) && Extends(l, after)
      invariant LogsFixed(chain, job.eventsOf) && Sourced(first, l, job) ==> Sourced(env.marker, after, job)
      invariant ready ==> Ready(env, config, owner, job, after, f)
      invariant first.Some? && first.value.operation.ReindexProjection? ==>
                  env.marker.Some? && env.marker.value.operation.ReindexProjection? && env.marker.value.recovery == first.value.recovery
    {
      env.lives := budgets[i];
      ghost var reached := after;
      var exit;
      exit, after, target := Attempt(env, chain, config, owner, scope, job, from, reached, f);
      if CatchesUp(first) {
        ExtendsOn(l, reached, after);
      }
      if exit.Done? {
        return true, after, target;
      }
    }
  }
}
