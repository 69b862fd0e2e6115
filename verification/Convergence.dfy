/** Whole runs of the indexer: any interleaving of commits, failed commits, reorganisations, rebuilds, deletions of
    the source and status updates. Orphaned rows never influence the result. */
module Convergence {
  import opened Wrappers
  import opened Domain
  import opened ProjectionTables
  import opened JournalDatabase
  import opened Ledger
  import opened CommitLedger
  import opened RebuildLedger

  /** One step of a run. `allow` is whether the store was opened for a reindex. */
  datatype Step =
    | Ingest(logs: seq<BlockLog>, allow: bool, accepted: bool)
    | Reorganise(from: nat, allow: bool)
    | Replayed(allow: bool)
    | Refetched(scope: string, allow: bool)
    | StatusChanged

  datatype World = World(db: Db, ledger: Ledger)

  function Registered(logScope: string): Db {
    Db(map[], map[], None, EMPTY_TABLES, PROJECTOR_VERSION, 0, logScope, Uninitialized, None)
  }

  ghost predicate Takes(w: World, scanStart: nat, step: Step, w': World) {
    match step
    case Ingest(logs, allow, accepted) =>
      && logs != [] && NextBatch(w.ledger, scanStart, logs)
      && w'.db == Commit(w.db, allow, w.db.logScope, Headers(logs), AllEvents(logs), logs[|logs| - 1].header).db
      && (accepted <==> CommitBatch(w.db, allow, logs).Success?)
      && w'.ledger == if accepted then Extend(w.ledger, logs) else w.ledger
    case Reorganise(from, allow) =>
      && w'.ledger == Truncate(w.ledger, scanStart, from)
      && exists previous, rewound, rows, buildId ::
           RewindsAndRebuilds(w.db, scanStart, from, allow, previous, rewound, rows, buildId, w'.db)
    case Replayed(allow) =>
      && w'.ledger == w.ledger
      && exists rows, buildId ::
           ListsJournal(rows, w.db) && w'.db == Rebuild(w.db, allow, w.db.logScope, scanStart, buildId, rows).db
    case Refetched(scope, allow) =>
      && w'.ledger == EMPTY_LEDGER
      && exists rows, buildId :: DeletesAndRebuilds(w.db, scanStart, scope, allow, rows, buildId, w'.db)
    case StatusChanged =>
      w'.ledger == w.ledger && exists status, reason :: w'.db == w.db.(status := status, reason := reason)
  }

  ghost predicate RewindsAndRebuilds(db: Db, scanStart: nat, from: nat, allow: bool, previous: Option<Checkpoint>,
                                     rewound: Db, rows: seq<EventRow>, buildId: nat, after: Db)
  {
    && PreviousCheckpoint(Orphan(db.blocks, from), from, previous)
    && rewound == Rewound(db, allow, from, previous)
    && ListsJournal(rows, rewound)
    && after == Rebuild(rewound, allow, rewound.logScope, scanStart, buildId, rows).db
  }

  /** The source is deleted, to be fetched anew, possibly under another log scope. */
  ghost predicate DeletesAndRebuilds(db: Db, scanStart: nat, scope: string, allow: bool, rows: seq<EventRow>, buildId: nat, after: Db) {
    && ListsJournal(rows, SourceDeleted(db, allow))
    && after == Rebuild(SourceDeleted(db, allow), allow, scope, scanStart, buildId, rows).db
  }

  ghost predicate IsRun(worlds: seq<World>, scanStart: nat, steps: seq<Step>) {
    && |worlds| == |steps| + 1
    && worlds[0].db == Registered(worlds[0].db.logScope) && worlds[0].ledger == EMPTY_LEDGER
    && forall i :: 0 <= i < |steps| ==> Takes(worlds[i], scanStart, steps[i], worlds[i + 1])
  }

  function StepHistory(before: seq<BlockLog>, scanStart: nat, step: Step): seq<BlockLog> {
    match step
    case Ingest(logs, _, accepted) => if accepted then before + logs else before
    case Reorganise(from, _) => before[..KeptLength(|before|, scanStart, from)]
    case Replayed(_) => before
    case Refetched(_, _) => []
    case StatusChanged => before
  }

  /** What a run amounts to: accepted batches appended, reorganised heights cut off, everything gone with its source. */
  function HistoryAfter(scanStart: nat, steps: seq<Step>): seq<BlockLog>
    decreases |steps|
  {
    if steps == [] then []
    else StepHistory(HistoryAfter(scanStart, steps[..|steps| - 1]), scanStart, steps[|steps| - 1])
  }

  lemma StatusKeepsAgreement(db: Db, l: Ledger, scanStart: nat, status: Status, reason: Option<string>)
    requires Agrees(db, l, scanStart)
    ensures Agrees(db.(status := status, reason := reason), l, scanStart)
  {
  }

  lemma IngestStep(w: World, scanStart: nat, step: Step, w': World)
    requires Agrees(w.db, w.ledger, scanStart) && step.Ingest? && Takes(w, scanStart, step, w')
    ensures Agrees(w'.db, w'.ledger, scanStart)
    ensures History(w'.ledger) == StepHistory(History(w.ledger), scanStart, step)
  {
    if step.accepted {
      CommitKeepsAgreement(w.db, w.ledger, scanStart, step.logs, step.allow);
      CommitExtendsLedger(w.db, w.ledger, scanStart, step.logs, step.allow);
    } else {
      StatusKeepsAgreement(w.db, w.ledger, scanStart, w'.db.status, w'.db.reason);
      assert w'.db == w.db.(status := w'.db.status, reason := w'.db.reason);
    }
  }

  lemma ReorganiseStep(w: World, scanStart: nat, step: Step, w': World)
    requires Agrees(w.db, w.ledger, scanStart) && step.Reorganise? && Takes(w, scanStart, step, w')
    ensures Agrees(w'.db, w'.ledger, scanStart)
    ensures History(w'.ledger) == StepHistory(History(w.ledger), scanStart, step)
  {
    var previous, rewound, rows, buildId :|
      RewindsAndRebuilds(w.db, scanStart, step.from, step.allow, previous, rewound, rows, buildId, w'.db);
    RewindThenRebuildAgrees(w.db, w.ledger, scanStart, step.from, previous, rewound, rows, step.allow, buildId);
    TruncateIsWellFormed(w.ledger, scanStart, step.from);
  }

  lemma ReplayStep(w: World, scanStart: nat, step: Step, w': World)
    requires Agrees(w.db, w.ledger, scanStart) && step.Replayed? && Takes(w, scanStart, step, w')
    ensures Agrees(w'.db, w'.ledger, scanStart)
  {
    var rows, buildId :|
      ListsJournal(rows, w.db) && w'.db == Rebuild(w.db, step.allow, w.db.logScope, scanStart, buildId, rows).db;
    RebuildIsIdempotent(w.db, w.ledger, scanStart, rows, step.allow, buildId);
  }

  lemma EmptyRebuild(db: Db, scope: string, scanStart: nat, rows: seq<EventRow>, allow: bool, buildId: nat)
    requires db.blocks == map[] && db.events == map[] && db.checkpoint == None && ListsJournal(rows, db)
    ensures var out := Rebuild(db, allow, scope, scanStart, buildId, rows);
            out.error.None? && Agrees(out.db, EMPTY_LEDGER, scanStart) && out.db.logScope == scope
  {
    assert History(EMPTY_LEDGER) == [];
    JournalQuery(db, EMPTY_LEDGER, scanStart, rows);
  }

  lemma RefetchStep(w: World, scanStart: nat, step: Step, w': World)
    requires step.Refetched? && Takes(w, scanStart, step, w')
    ensures Agrees(w'.db, w'.ledger, scanStart) && w'.db.logScope == step.scope
    ensures History(w'.ledger) == []
  {
    hide Rebuild, ListsJournal;
    var rows, buildId :| DeletesAndRebuilds(w.db, scanStart, step.scope, step.allow, rows, buildId, w'.db);
    EmptyRebuild(SourceDeleted(w.db, step.allow), step.scope, scanStart, rows, step.allow, buildId);
    assert History(EMPTY_LEDGER) == [];
  }

  lemma EveryStepAgrees(w: World, scanStart: nat, step: Step, w': World)
    requires Agrees(w.db, w.ledger, scanStart) && Takes(w, scanStart, step, w')
    ensures Agrees(w'.db, w'.ledger, scanStart)
    ensures History(w'.ledger) == StepHistory(History(w.ledger), scanStart, step)
  {
    match step
    case Ingest(_, _, _) => IngestStep(w, scanStart, step, w');
    case Reorganise(_, _) => ReorganiseStep(w, scanStart, step, w');
    case Replayed(_) => ReplayStep(w, scanStart, step, w');
    case Refetched(_, _) => RefetchStep(w, scanStart, step, w');
    case StatusChanged =>
      var status, reason :| w'.db == w.db.(status := status, reason := reason);
      StatusKeepsAgreement(w.db, w.ledger, scanStart, status, reason);
  }

  /** After every run the projections are the replay of the canonical journal, and the canonical history is
      what the accepted batches and reorganisations left. */
  lemma {:induction false} RunAgrees(worlds: seq<World>, scanStart: nat, steps: seq<Step>)
    requires IsRun(worlds, scanStart, steps)
    decreases |steps|
    ensures var w := worlds[|steps|];
            Agrees(w.db, w.ledger, scanStart) && History(w.ledger) == HistoryAfter(scanStart, steps)
  {
    if steps == [] {
      assert History(EMPTY_LEDGER) == [];
    } else {
      var n := |steps| - 1;
      RunAgrees(worlds[..n + 1], scanStart, steps[..n]);
      assert Takes(worlds[n], scanStart, steps[n], worlds[n + 1]);
      EveryStepAgrees(worlds[n], scanStart, steps[n], worlds[n + 1]);
    }
  }

  /** A run goes on by any step its last world can take. */
  lemma OneMoreStep(worlds: seq<World>, scanStart: nat, steps: seq<Step>, step: Step, w: World)
    returns (worlds': seq<World>, steps': seq<Step>)
    requires IsRun(worlds, scanStart, steps) && Takes(worlds[|steps|], scanStart, step, w)
    ensures IsRun(worlds', scanStart, steps') && |worlds'| == |steps'| + 1 && worlds'[|steps'|] == w
    ensures HistoryAfter(scanStart, steps') == StepHistory(HistoryAfter(scanStart, steps), scanStart, step)
  {
    hide Takes;
    worlds', steps' := worlds + [w], steps + [step];
    forall i | 0 <= i < |steps'| ensures Takes(worlds'[i], scanStart, steps'[i], worlds'[i + 1]) {
      assert i < |steps| ==> Takes(worlds[i], scanStart, steps[i], worlds[i + 1]);
    }
    assert steps'[..|steps|] == steps;
  }

  // ---- against a fresh index ----

  /** A suffix of a well-formed history is a next batch of the ledger made of its prefix. */
  lemma {:induction false} SuffixIsNextBatch(l: Ledger, scanStart: nat, prefix: Ledger, k: nat)
    requires WellFormed(l, scanStart) && k <= |l.canon|
    requires prefix.canon == l.canon[..k]
    requires forall h <- prefix.archive :: h in l.archive && prefix.archive[h] == l.archive[h]
    decreases |l.canon| - k
    ensures NextBatch(prefix, scanStart, History(l)[k..]) && SameContent(prefix, History(l)[k..])
  {
    var rest := History(l)[k..];
    if rest != [] {
      var log := rest[0];
      assert log == l.archive[l.canon[k]] && log.header.number == scanStart + k;
      assert rest[1..] == History(l)[k + 1..];
      SuffixIsNextBatch(l, scanStart, ExtendOne(prefix, log), k + 1);
    }
  }

  lemma EmptyAgrees(scanStart: nat, logScope: string)
    ensures Agrees(Registered(logScope), EMPTY_LEDGER, scanStart)
    ensures History(EMPTY_LEDGER) == []
  {
    assert History(EMPTY_LEDGER) == [];
  }

  lemma CheckpointEndsHistory(db: Db, l: Ledger, scanStart: nat)
    requires Represents(db, l, scanStart) && l.canon != []
    ensures History(l) != [] && db.checkpoint == Some(EndOf(History(l)))
  {
    var top := |l.canon| - 1;
    assert l.archive[l.canon[top]].header.number == scanStart + top;
    assert History(l)[top] == l.archive[l.canon[top]];
  }

  lemma SameHistorySameCanon(la: Ledger, lb: Ledger, scanStart: nat)
    requires WellFormed(la, scanStart) && WellFormed(lb, scanStart) && History(la) == History(lb)
    ensures la.canon == lb.canon
    ensures forall h <- la.canon :: la.archive[h] == lb.archive[h]
  {
    assert |la.canon| == |History(la)| == |lb.canon|;
    forall i | 0 <= i < |la.canon| ensures la.canon[i] == lb.canon[i] {
      assert History(la)[i] == History(lb)[i];
    }
    forall h | h in la.canon ensures la.archive[h] == lb.archive[h] {
      var i :| 0 <= i < |la.canon| && la.canon[i] == h;
      assert History(la)[i] == History(lb)[i];
    }
  }

  /** Every canonical block and journal row of `a` is one of `b`. */
  ghost predicate CanonicalRowsShared(a: Db, b: Db) {
    && (forall h <- a.blocks :: a.blocks[h].canonical ==> h in b.blocks && a.blocks[h] == b.blocks[h])
    && (forall k :: CanonicalEvent(a, k) ==> CanonicalEvent(b, k) && a.events[k] == b.events[k])
  }

  lemma SameCanonSameRows(a: Db, la: Ledger, b: Db, lb: Ledger, scanStart: nat)
    requires Represents(a, la, scanStart) && Represents(b, lb, scanStart) && a.logScope == b.logScope
    requires la.canon == lb.canon && forall h <- la.canon :: la.archive[h] == lb.archive[h]
    ensures CanonicalRowsShared(a, b)
  {
    forall h | h in a.blocks && a.blocks[h].canonical ensures h in b.blocks && a.blocks[h] == b.blocks[h] {
      assert h in la.canon;
    }
    forall k | CanonicalEvent(a, k) ensures CanonicalEvent(b, k) && a.events[k] == b.events[k] {
      StoredRow(a, la, scanStart, k);
      assert k.blockHash in la.canon;
    }
  }

  /** Two databases of one history hold the same canonical blocks and the same canonical journal. */
  lemma SameHistorySameCanonicalRows(a: Db, la: Ledger, b: Db, lb: Ledger, scanStart: nat)
    requires Represents(a, la, scanStart) && Represents(b, lb, scanStart) && a.logScope == b.logScope
    requires History(la) == History(lb)
    ensures CanonicalRowsShared(a, b) && CanonicalRowsShared(b, a)
  {
    SameHistorySameCanon(la, lb, scanStart);
    SameCanonSameRows(a, la, b, lb, scanStart);
    SameHistorySameCanon(lb, la, scanStart);
    SameCanonSameRows(b, lb, a, la, scanStart);
  }

  lemma FreshCommit(db: Db, l: Ledger, scanStart: nat, logs: seq<BlockLog>)
    requires Agrees(db, l, scanStart) && logs == History(l) && logs != []
    ensures var start := CommitBatch(Registered(db.logScope), false, logs);
            && start.Success? && start.value.tables == db.tables && start.value.checkpoint == db.checkpoint
            && start.value.logScope == db.logScope && Represents(start.value, Extend(EMPTY_LEDGER, logs), scanStart)
    ensures History(Extend(EMPTY_LEDGER, logs)) == logs
  {
    hide BlocksRepresent, EventsRepresent, CommitTransaction, NextBatch, Extend, SameContent, WellFormedLog, Replay, AllEvents;
    EmptyAgrees(scanStart, db.logScope);
    SuffixIsNextBatch(l, scanStart, EMPTY_LEDGER, 0);
    assert History(l)[0..] == logs;
    CheckpointEndsHistory(db, l, scanStart);
    CommitExtendsLedger(Registered(db.logScope), EMPTY_LEDGER, scanStart, logs, false);
    CommitKeepsContract(Registered(db.logScope), false, logs);
  }

  /** A database that agrees with its journal is the fresh index of its canonical history. */
  lemma AgreementIsFreshIndex(db: Db, l: Ledger, scanStart: nat, logs: seq<BlockLog>)
    requires Agrees(db, l, scanStart) && logs == History(l) && logs != []
    ensures var start := CommitBatch(Registered(db.logScope), false, logs);
            && start.Success? && start.value.tables == db.tables && start.value.checkpoint == db.checkpoint
            && CanonicalRowsShared(start.value, db) && CanonicalRowsShared(db, start.value)
  {
    hide Represents, CommitBatch, Extend, Replay, CanonicalRowsShared;
    FreshCommit(db, l, scanStart, logs);
    SameHistorySameCanonicalRows(CommitBatch(Registered(db.logScope), false, logs).value, Extend(EMPTY_LEDGER, logs), db, l, scanStart);
  }

  /** Convergence: a run over any branches, however batched, leaves the projections, the checkpoint and the canonical
      rows that one commit of its final history into a fresh database leaves. */
  lemma RunEqualsFreshIndex(worlds: seq<World>, scanStart: nat, steps: seq<Step>)
    requires IsRun(worlds, scanStart, steps)
    requires HistoryAfter(scanStart, steps) != []
    ensures var w := worlds[|steps|];
            var start := CommitBatch(Registered(w.db.logScope), false, HistoryAfter(scanStart, steps));
            && start.Success? && start.value.tables == w.db.tables && start.value.checkpoint == w.db.checkpoint
            && CanonicalRowsShared(start.value, w.db) && CanonicalRowsShared(w.db, start.value)
  {
    hide CommitBatch, CanonicalRowsShared;
    RunAgrees(worlds, scanStart, steps);
    AgreementIsFreshIndex(worlds[|steps|].db, worlds[|steps|].ledger, scanStart, HistoryAfter(scanStart, steps));
  }

  function CheckpointAfter(logs: seq<BlockLog>): Option<Checkpoint> {
    if logs == [] then None else Some(EndOf(logs))
  }

  /** The projections and the checkpoint after a run are a function of its history alone. */
  lemma RunOutcome(worlds: seq<World>, scanStart: nat, steps: seq<Step>)
    requires IsRun(worlds, scanStart, steps)
    ensures var db, logs := worlds[|steps|].db, HistoryAfter(scanStart, steps);
            Replay(EMPTY_TABLES, AllEvents(logs)) == Success(db.tables) && db.checkpoint == CheckpointAfter(logs)
  {
    RunAgrees(worlds, scanStart, steps);
    var w := worlds[|steps|];
    if w.ledger.canon != [] {
      CheckpointEndsHistory(w.db, w.ledger, scanStart);
    } else {
      assert History(w.ledger) == [];
    }
  }

  /** Confluence: however one history was batched, bisected, orphaned and returned to. */
  lemma RunsOfOneHistoryConverge(a: seq<World>, stepsA: seq<Step>, b: seq<World>, stepsB: seq<Step>, scanStart: nat)
    requires IsRun(a, scanStart, stepsA) && IsRun(b, scanStart, stepsB)
    requires HistoryAfter(scanStart, stepsA) == HistoryAfter(scanStart, stepsB)
    ensures a[|stepsA|].db.tables == b[|stepsB|].db.tables
    ensures a[|stepsA|].db.checkpoint == b[|stepsB|].db.checkpoint
  {
    RunOutcome(a, scanStart, stepsA);
    RunOutcome(b, scanStart, stepsB);
  }

  // ---- the canonical history, read off the database ----

  ghost predicate HeightFilled(db: Db, n: nat) {
    exists h :: HasCanonicalBlock(db, n, h)
  }

  lemma CanonPosition(db: Db, l: Ledger, scanStart: nat, h: Hash)
    requires Represents(db, l, scanStart) && h in db.blocks && db.blocks[h].canonical
    ensures scanStart <= db.blocks[h].number < scanStart + |l.canon|
    ensures l.canon[db.blocks[h].number - scanStart] == h
  {
    var i :| 0 <= i < |l.canon| && l.canon[i] == h;
    assert l.archive[l.canon[i]].header.number == scanStart + i;
  }

  lemma CanonAt(db: Db, l: Ledger, scanStart: nat, i: nat)
    requires Represents(db, l, scanStart) && i < |l.canon|
    ensures HasCanonicalBlock(db, scanStart + i, l.canon[i])
    ensures i > 0 ==> db.blocks[l.canon[i]].parentHash == l.canon[i - 1]
  {
    assert l.canon[i] in l.canon && l.archive[l.canon[i]].header.number == scanStart + i;
  }

  lemma OneRowPerHeight(db: Db, l: Ledger, scanStart: nat)
    requires Represents(db, l, scanStart)
    ensures OneCanonicalPerHeight(db.blocks)
  {
    forall g, h | g in db.blocks && h in db.blocks && db.blocks[g].canonical && db.blocks[h].canonical
                  && db.blocks[g].number == db.blocks[h].number
      ensures g == h
    {
      CanonPosition(db, l, scanStart, g);
      CanonPosition(db, l, scanStart, h);
    }
  }

  /** One canonical row per height from the scan start to the checkpoint and none elsewhere. */
  lemma CanonicalHistoryIsDense(db: Db, l: Ledger, scanStart: nat)
    requires Represents(db, l, scanStart)
    ensures OneCanonicalPerHeight(db.blocks)
    ensures db.checkpoint.None? ==> forall h <- db.blocks :: !db.blocks[h].canonical
    ensures db.checkpoint.Some? ==>
              var cp := db.checkpoint.value;
              && HasCanonicalBlock(db, cp.number, cp.hash)
              && (forall n | scanStart <= n <= cp.number :: HeightFilled(db, n))
              && (forall h <- db.blocks :: db.blocks[h].canonical ==> scanStart <= db.blocks[h].number <= cp.number)
  {
    OneRowPerHeight(db, l, scanStart);
    if db.checkpoint.Some? {
      CanonAt(db, l, scanStart, |l.canon| - 1);
      forall n | scanStart <= n <= db.checkpoint.value.number ensures HeightFilled(db, n) {
        CanonAt(db, l, scanStart, n - scanStart);
      }
    }
    forall h | h in db.blocks && db.blocks[h].canonical
      ensures scanStart <= db.blocks[h].number < scanStart + |l.canon|
    {
      CanonPosition(db, l, scanStart, h);
    }
  }

  /** Every canonical row above the scan start is linked to the canonical row below it. */
  lemma CanonicalHistoryIsLinked(db: Db, l: Ledger, scanStart: nat, h: Hash)
    requires Represents(db, l, scanStart) && h in db.blocks && db.blocks[h].canonical
    ensures db.blocks[h].number > scanStart ==> HasCanonicalBlock(db, db.blocks[h].number - 1, db.blocks[h].parentHash)
  {
    CanonPosition(db, l, scanStart, h);
    var i := db.blocks[h].number - scanStart;
    CanonAt(db, l, scanStart, i);
    if i > 0 {
      CanonAt(db, l, scanStart, i - 1);
    }
  }
}
