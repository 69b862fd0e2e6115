/** Batching confluence: on a chain that does not change, batch sizes, bisections and interruptions leave no trace. */
module Confluence {
  import opened Wrappers
  import opened Domain
  import opened JournalDatabase
  import opened Ledger
  import opened CommitLedger
  import opened SteadyChain
  import opened Convergence
  import opened ChainAccess
  import opened ProjectionStore
  import opened IngestRange
  import opened CatchUp
  import opened Reindex

  /** Every pass extends a run: by the commit of its batch, if it has one, and a change of the status. What holds of
      whole runs therefore holds after any passes, reorganisations and rebuilds. */
  lemma PassExtendsRun(worlds: seq<World>, scanStart: nat, steps: seq<Step>, logs: seq<BlockLog>, b: Db)
    returns (worlds': seq<World>, steps': seq<Step>)
    requires IsRun(worlds, scanStart, steps)
    requires Passed(worlds[|steps|].db, worlds[|steps|].ledger, scanStart, logs, b)
    ensures IsRun(worlds', scanStart, steps') && |worlds'| == |steps'| + 1
    ensures worlds'[|steps'|] == World(b, Extend(worlds[|steps|].ledger, logs))
    ensures HistoryAfter(scanStart, steps') == HistoryAfter(scanStart, steps) + logs
  {
    var w := worlds[|steps|];
    assert |worlds| == |steps| + 1;
    hide IsRun, HistoryAfter, Passed, Takes, Extend, CommitTransaction;
    PassEnds(w, scanStart, logs, b);
    worlds', steps' := worlds, steps;
    if logs != [] {
      PassCommits(w, scanStart, logs, b);
      worlds', steps' := OneMoreStep(worlds, scanStart, steps, Ingest(logs, true, true),
                                     World(CommitBatch(w.db, true, logs).value, Extend(w.ledger, logs)));
    }
    worlds', steps' := OneMoreStep(worlds', scanStart, steps', StatusChanged, World(b, Extend(w.ledger, logs)));
  }

  lemma PassCommits(w: World, scanStart: nat, logs: seq<BlockLog>, b: Db)
    requires Passed(w.db, w.ledger, scanStart, logs, b) && logs != []
    ensures CommitBatch(w.db, true, logs).Success?
    ensures Takes(w, scanStart, Ingest(logs, true, true), World(CommitBatch(w.db, true, logs).value, Extend(w.ledger, logs)))
  {
    hide CommitTransaction, Represents, NextBatch;
  }

  lemma PassEnds(w: World, scanStart: nat, logs: seq<BlockLog>, b: Db)
    requires Passed(w.db, w.ledger, scanStart, logs, b)
    ensures logs != [] ==> CommitBatch(w.db, true, logs).Success?
    ensures var before := if logs == [] then w else World(CommitBatch(w.db, true, logs).value, Extend(w.ledger, logs));
            Takes(before, scanStart, StatusChanged, World(b, Extend(w.ledger, logs)))
  {
    hide CommitTransaction, Represents, NextBatch;
    var before := if logs == [] then w.db else CommitBatch(w.db, true, logs).value;
    assert b == before.(status := b.status, reason := b.reason);
  }

  /** Two indexes of one chain up to one height agree in everything canonical, and with one commit of the whole
      range into a fresh database. */
  lemma IndexesOfOneChainAgree(a: Db, la: Ledger, b: Db, lb: Ledger, f: Chain, scanStart: nat)
    requires Agrees(a, la, scanStart) && OnChain(la, f, scanStart)
    requires Agrees(b, lb, scanStart) && OnChain(lb, f, scanStart)
    requires |la.canon| == |lb.canon| && a.logScope == b.logScope
    ensures a.tables == b.tables && a.checkpoint == b.checkpoint
    ensures CanonicalRowsShared(a, b) && CanonicalRowsShared(b, a)
    ensures la.canon != [] ==>
              var whole := CommitBatch(Registered(a.logScope), false, ChainLogs(f, scanStart, |la.canon|));
              && whole.Success? && whole.value.tables == a.tables && whole.value.checkpoint == a.checkpoint
              && CanonicalRowsShared(whole.value, a) && CanonicalRowsShared(a, whole.value)
  {
    hide Agrees, CanonicalRowsShared, CommitTransaction, Honest;
    AgreeingTwins(a, la, b, lb, scanStart);
    if la.canon != [] {
      AgreementIsFreshIndex(a, la, scanStart, ChainLogs(f, scanStart, |la.canon|));
    }
  }

  /** Indexes a fresh database up to a target with whatever batch size: it ends exactly there, on the chain. */
  method IndexFresh(chain: ChainReader, store: Store, config: Config, target: nat, ghost headerOf: Hash -> BlockHeader, ghost f: Chain)
    returns (error: Option<CatchUpError>, ghost l: Ledger)
    requires chain.Sane(headerOf) && LogsFixed(chain, f.eventsOf) && chain.Faithful(f)
    requires store.db.Valid() && store.logScope == store.db.logScope && store.db.State() == Registered(store.logScope)
    requires config.startBlock == store.db.scanStart && config.maximumTarget == Some(target)
    modifies chain, store.db
    ensures store.db.Valid() && Agrees(store.db.State(), l, store.db.scanStart) && OnChain(l, f, store.db.scanStart)
    ensures error.None? ==> store.db.checkpoint.Some? && store.db.checkpoint.value.number == target == store.db.scanStart + |l.canon| - 1
    ensures old(chain.Responsive(f)) && InReach(config, f, store.db.scanStart, target)
            && ChainAccepted(f, store.db.scanStart) ==>
              error.None?
  {
    hide ChainReader.Responsive, ChainReader.Faithful, ChainReader.Sane, LogsFixed, ChainAccepted, OnChain, Agrees;
    EmptyAgrees(store.db.scanStart, store.logScope);
    EmptyOnChain(f, store.db.scanStart);
    FreshIsSmooth(chain, store.db.State(), store.db.scanStart, store.allowReindexRecovery, f);
    ghost var added: seq<BlockLog>;
    error, l, added := CatchUp.CatchUp(chain, store, config, target, headerOf, f.eventsOf, EMPTY_LEDGER, f);
    FreshReach(store.db.State(), l, added, store.db.scanStart, target, headerOf);
  }

  lemma FreshIsSmooth(chain: ChainReader, db: Db, scanStart: nat, allow: bool, f: Chain)
    requires !db.status.RecoveryRequired? && Agrees(db, EMPTY_LEDGER, scanStart)
    requires OnChain(EMPTY_LEDGER, f, scanStart) && LogsFixed(chain, f.eventsOf)
    ensures ChainAccepted(f, scanStart) ==> Smooth(chain, db, EMPTY_LEDGER, scanStart, allow, f)
  {
  }

  lemma FreshReach(db: Db, l: Ledger, added: seq<BlockLog>, scanStart: nat, target: nat, headerOf: Hash -> BlockHeader)
    requires Agrees(db, l, scanStart) && GrownTo(EMPTY_LEDGER, added, l, scanStart, target, headerOf)
    ensures db.checkpoint == CheckpointOf(l, scanStart)
    ensures l.canon != [] ==> scanStart + |l.canon| - 1 <= target
  {
    assert History(EMPTY_LEDGER) == [];
    assert |History(l)| == |added|;
  }
}
