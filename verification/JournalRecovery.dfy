/** resumeJournalEntry: recovery as one more concurrent writer of the journal. */
module JournalRecovery {
  import opened Wrappers
  import opened Domain
  import opened TransactionJournal
  import opened LocalStorageJournal
  import opened WalletSubmission
  import opened SubmissionProtocol
  import opened SubmissionAttempt
  import FundingObservation

  /** What the chain says of a transaction. */
  datatype Inspected =
    | Pending
    | FoundReverted(hash: Hash, blockNumber: nat, blockHash: Hash, repriced: bool)
    | FoundSuccess(hash: Hash, blockNumber: nat, blockHash: Hash, repriced: bool, event: Option<FundingEvent>)
    | Replaced(replacementHash: Hash, cancelled: bool)
    | Noncanonical
    | IntentMismatch(reason: string)
    | ReplacementHashRequired
    | NotInspected(reason: string)

  /** What the chain says of the finality of a receipt; unproved, too, if the reader fails. */
  datatype FinalityProof = ProvedFinal(head: FinalizedHead) | ProvedUnfinalized | Unproved

  /** What the read model says of a funding, and the build of its projection. */
  datatype Snapshot = Snapshot(observation: FundingObservation.Observation, buildId: string)

  datatype RecoveryResult =
    | HashRequired | StillPending | FoundRevert | Included | ProjectionSyncing | ProjectionReflected | Inconsistent
    | RejectedCandidate | NeedsReplacementHash | Superseded | CannotInspect | WriteThrew(error: JournalError)

  /** Is this the transaction of a funding, whose event must be identified too? */
  predicate IsFunding(e: Entry) {
    e.intent.action == "FUND_SALE"
  }

  /** The association a verified hash gives the entry. */
  function Associated(verifying: Entry, candidate: Option<Hash>): Association {
    if candidate.Some? then IntentMatch
    else if verifying.evidence.association.Some? then verifying.evidence.association.value else ExactSubmission
  }

  function SourceOf(verifying: Entry, candidate: Option<Hash>): EvidenceSource {
    if candidate.Some? then UserSupplied
    else if verifying.evidenceSource.Some? then verifying.evidenceSource.value else WalletReturned
  }

  /** The entry already records this very receipt. */
  predicate SameReceipt(e: Entry, hash: Hash, number: nat, blockHash: Hash) {
    && SameHash(e.evidence.currentTxHash, Some(hash)) && e.receiptBlockNumber == Some(number)
    && SameHash(e.evidence.receiptBlockHash, Some(blockHash))
  }

  /** Finality once proved for a receipt is kept; without a finality reader nothing is written. */
  function WithFinality(e: Entry, verifying: Entry, hash: Hash, number: nat, blockHash: Hash, proof: Option<FinalityProof>): Entry {
    if proof.None? then e
    else if SameReceipt(verifying, hash, number, blockHash) && verifying.finality == Some(Finalized) then e.(finality := Some(Finalized))
    else
      match proof.value
      case ProvedFinal(head) => e.(finality := Some(Finalized), finalizedHead := Some(head))
      case ProvedUnfinalized => e.(finality := Some(Unfinalized), finalizedHead := None)
      case Unproved => e.(finality := Some(FinalityUnknown), finalizedHead := None)
  }

  /** The projection observed for the entry was of another event. */
  predicate ProjectionIdentityChanged(verifying: Entry, hash: Hash, blockHash: Hash, logIndex: nat) {
    || verifying.evidence.projectionTransactionHash != Some(hash) || verifying.projected.None?
    || (var p := verifying.projected.value;
        p.blockHash != blockHash || p.logIndex != logIndex || p.deploymentId != verifying.intent.deploymentId)
  }

  /** The entry with the receipt the inspection found. */
  function WithReceipt(current: Entry, verifying: Entry, candidate: Option<Hash>, hash: Hash, found: Inspected, status: TxStatus,
                       receipt: TxReceiptStatus, proof: Option<FinalityProof>): (e: Entry)
    requires found.FoundReverted? || found.FoundSuccess?
    ensures e.status == status
  {
    var original := if verifying.evidence.originalTxHash.Some? then current.evidence.originalTxHash else Some(hash);
    var proved := WithFinality(current, verifying, found.hash, found.blockNumber, found.blockHash, proof);
    proved.(status := status, availability := Some(Available), lastError := None,
            evidenceSource := Some(SourceOf(verifying, candidate)),
            evidence := current.evidence.(currentTxHash := Some(found.hash), originalTxHash := original,
                                          association := Some(Associated(verifying, candidate)),
                                          receiptStatus := Some(receipt), receiptBlockHash := Some(found.blockHash)),
            receiptBlockNumber := Some(found.blockNumber),
            replacementKind := if found.repriced then Some(Repriced) else current.replacementKind)
  }

  /** The entry with the funding event its transaction emitted; an observation of another event is dropped. */
  function WithEvent(e: Entry, verifying: Entry, found: Inspected): (identified: Entry)
    requires found.FoundSuccess? && found.event.Some?
    ensures identified.status == e.status
  {
    var event := found.event.value;
    var named := e.(event := Some(event), evidence := e.evidence.(eventLogIndex := Some(event.logIndex)));
    if ProjectionIdentityChanged(verifying, found.hash, found.blockHash, event.logIndex)
    then named.(projection := None, projected := None, evidence := named.evidence.(projectionTransactionHash := None))
    else named
  }

  /** The entry after what the inspection found was applied to its current version. */
  function AfterInspection(current: Entry, verifying: Entry, candidate: Option<Hash>, hash: Hash, found: Inspected,
                           proof: Option<FinalityProof>): (e: Entry)
    ensures e.id == current.id && e.intent == current.intent && e.revision == current.revision
    ensures e.outcome == current.outcome && e.walletRequestStartedAt == current.walletRequestStartedAt
    ensures e.verificationRequestId == current.verificationRequestId
    ensures !current.status.Idle? ==> !e.status.Idle?
  {
    var settled := current.(availability := Some(Available));
    match found
    case Pending =>
      var original := if verifying.evidence.originalTxHash.Some? then current.evidence.originalTxHash else Some(hash);
      settled.(status := Submitted, lastError := Some("RECEIPT_NOT_AVAILABLE"), evidenceSource := Some(SourceOf(verifying, candidate)),
               evidence := current.evidence.(currentTxHash := Some(hash), originalTxHash := original,
                                             association := Some(Associated(verifying, candidate))))
    case FoundReverted(_, _, _, _) =>
      WithReceipt(current, verifying, candidate, hash, found, IncludedReverted, ReceiptReverted, proof)
    case FoundSuccess(_, _, _, _, event) =>
      if IsFunding(verifying) && event.None? then settled.(lastError := Some("FUNDING_EVENT_EVIDENCE_MISSING"))
      else
        var e := WithReceipt(current, verifying, candidate, hash, found, IncludedSuccess, ReceiptSuccess, proof);
        if IsFunding(verifying) then WithEvent(e, verifying, found) else e.(projection := None)
    case Replaced(h, cancelled) =>
      settled.(status := ReplacedOrCancelled, projection := Some(ProjectionInconsistent),
               lastError := Some(if cancelled then "TRANSACTION_CANCELLED" else "TRANSACTION_DIFFERENT_CALL"),
               replacementKind := Some(if cancelled then Cancelled else DifferentCall),
               evidence := current.evidence.(currentTxHash := Some(h)))
    case Noncanonical =>
      settled.(status := Orphaned, lastError := Some("RECEIPT_BLOCK_NONCANONICAL"), projection := Some(ProjectionInconsistent))
    case IntentMismatch(reason) => settled.(lastError := Some("CANDIDATE_REJECTED:" + reason))
    case ReplacementHashRequired => current.(availability := Some(Unavailable), lastError := Some("REPLACEMENT_HASH_REQUIRED"))
    case NotInspected(reason) => current.(availability := Some(Unavailable), lastError := Some(reason))
  }

  /** Recovery gives an intent up exactly for a reverted or a replaced transaction, or leaves it given up; it is taken
      back only for a transaction that is pending, included or orphaned. */
  predicate GivesUpFinally(before: TxStatus, after: TxStatus, found: Inspected) {
    && (GivesUp(after) && !GivesUp(before) ==> found.FoundReverted? || found.Replaced?)
    && (found.FoundReverted? || found.Replaced? ==> GivesUp(after))
    && (GivesUp(before) && !GivesUp(after) ==> found.Pending? || found.FoundSuccess? || found.Noncanonical?)
  }

  lemma RecoveryGivesUpOnlyFinally(current: Entry, verifying: Entry, candidate: Option<Hash>, hash: Hash, found: Inspected,
                                   proof: Option<FinalityProof>)
    ensures GivesUpFinally(current.status, AfterInspection(current, verifying, candidate, hash, found, proof).status, found)
  {
    hide WithReceipt, WithEvent, WithFinality, SourceOf, Associated;
  }

  // ---- one write ----

  predicate Filled<T(==)>(stored: Option<T>, next: Option<T>) {
    next.Some? ==> stored == next
  }

  /** `stored` is `next`, saved: at a later revision, and with what a durable version of it may add where `next` says nothing. */
  predicate Carries(stored: Entry, next: Entry) {
    && stored == next.(revision := stored.revision, evidenceSource := stored.evidenceSource, outcome := stored.outcome,
                       receiptBlockNumber := stored.receiptBlockNumber, finality := stored.finality,
                       finalizedHead := stored.finalizedHead, event := stored.event, replacementKind := stored.replacementKind,
                       projection := stored.projection, projected := stored.projected)
    && Filled(stored.evidenceSource, next.evidenceSource) && Filled(stored.outcome, next.outcome)
    && Filled(stored.receiptBlockNumber, next.receiptBlockNumber) && Filled(stored.finality, next.finality)
    && Filled(stored.finalizedHead, next.finalizedHead) && Filled(stored.event, next.event)
    && Filled(stored.replacementKind, next.replacementKind)
    && Filled(stored.projection, next.projection) && Filled(stored.projected, next.projected)
  }

  lemma StoredCarries(at: seq<Entry>, w: TransactionJournal.Write)
    requires Perform(at, w).Success?
    ensures Carries(Perform(at, w).value.stored, w.entry) && Perform(at, w).value.stored.revision >= 1
  {
    hide RevisionIn, TransactionJournal.Replaced, SameOperationIntent;
  }

  /** What a write changes, and to what. */
  datatype Values =
    | HashMissing
    | Marking(requestId: string)
    | Result(verifying: Entry, candidate: Option<Hash>, hash: Hash, found: Inspected, proof: Option<FinalityProof>)
    | SaleMissing
    | ObservedAs(hash: Hash, blockHash: Hash, logIndex: nat, projection: Projection, buildId: string)
    | Unobserved

  function With(current: Entry, values: Values): (next: Entry)
    ensures next.id == current.id && next.intent == current.intent && next.revision == current.revision
    ensures next.verificationRequestId == if values.Marking? then Some(values.requestId) else current.verificationRequestId
    ensures !current.status.Idle? ==> !next.status.Idle?
  {
    match values
    case HashMissing =>
      current.(status := Unknown, availability := Some(Available), lastError := Some("HASH_REQUIRED_FROM_WALLET_ACTIVITY"))
    case Marking(requestId) => current.(availability := Some(Verifying), verificationRequestId := Some(requestId))
    case Result(verifying, candidate, hash, found, proof) => AfterInspection(current, verifying, candidate, hash, found, proof)
    case SaleMissing => current.(projection := Some(ProjectionInconsistent), lastError := Some("FUNDING_SALE_ID_MISSING"))
    case ObservedAs(hash, blockHash, logIndex, projection, buildId) =>
      current.(projection := Some(projection),
               projected := Some(Projected(blockHash, logIndex, current.intent.deploymentId, buildId)),
               evidence := current.evidence.(projectionTransactionHash := Some(hash)), availability := Some(Available),
               lastError := if projection.ProjectionInconsistent? then Some("PROJECTION_EVIDENCE_MISMATCH") else None)
    case Unobserved => current.(availability := Some(Unavailable), lastError := Some("PROJECTION_OBSERVATION_UNAVAILABLE"))
  }

  /** Only what the inspection found gives an intent up; without a hash the status becomes UNKNOWN; nothing else touches it. */
  predicate SetsStatus(values: Values, before: TxStatus, after: TxStatus) {
    match values
    case HashMissing => after.Unknown?
    case Result(_, _, _, found, _) => GivesUpFinally(before, after, found)
    case _ => after == before
  }

  lemma WithSetsStatus(current: Entry, values: Values)
    ensures SetsStatus(values, current.status, With(current, values).status)
  {
    hide AfterInspection, GivesUpFinally;
    if values.Result? {
      RecoveryGivesUpOnlyFinally(current, values.verifying, values.candidate, values.hash, values.found, values.proof);
    }
  }

  /** What writing an entry back does: it saves it, or retries, and only if that fails puts it into the overlay. */
  ghost predicate IsWriteBack(calls: seq<Call>, next: Entry) {
    && 1 <= |calls| <= 2 && (forall c <- calls :: c.entry == next)
    && !calls[0].kind.VolatileCall? && (|calls| == 2 ==> !calls[0].succeeds && calls[1].kind.VolatileCall?)
  }

  /** A volatile version can become durable again: nobody wrote the operation since it was first made. */
  predicate CanSettle(v: Local, id: string) {
    id in v.overlay && id in v.bases ==> RevisionIn(v.durable, id) == v.bases[id]
  }

  /** From now on storage works and no other tab writes; and if writes failed before, this operation can settle. */
  ghost predicate Undisturbed(journal: Journal, id: string)
    reads journal, journal.storage
  {
    && journal.storage.Working() && journal.storage.Alone() && UniqueIds(journal.storage.entries)
    && (journal.writeIssues != {} ==> CanSettle(journal.Contents(), id))
  }

  /** update's write: durable, or durable again while storage has failed before; into the overlay only if storage fails
      now. Undisturbed it succeeds, and after a failure leaves the overlay again. */
  method WriteBack(journal: Journal, next: Entry, storageFailed: bool) returns (r: Result<Entry, JournalError>)
    requires journal.Valid()
    modifies journal, journal.storage
    ensures journal.Valid() && Went(journal.storage, old(journal.Now()), journal.Now())
    ensures old(journal.calls) <= journal.calls && IsWriteBack(journal.calls[|old(journal.calls)|..], next)
    ensures |journal.calls| > |old(journal.calls)| && (r.Success? <==> journal.calls[|journal.calls| - 1].succeeds)
    ensures journal.calls[|old(journal.calls)|].kind.RetryCall? <==> storageFailed && next.id in old(journal.volatileEntries)
    ensures |journal.calls| == |old(journal.calls)| + 2 ==> next.id in journal.writeIssues && !old(journal.storage.Working())
    ensures r.Success? ==> Carries(r.value, next) && r.value.revision >= 1 && Shows(journal, r.value)
    ensures r.Failure? ==> !r.error.StorageUnavailable? && journal.volatileEntries == old(journal.volatileEntries)
    ensures old(InOrder(journal, next)) ==>
              journal.Regular(next.id, next.intent) && CallsFit(old(journal.calls), journal.calls, next.id, next.intent)
    ensures old(Undisturbed(journal, next.id)) && Writable(old(journal.Contents()), next)
            && storageFailed == (old(journal.writeIssues) != {}) ==>
              r.Success? && Undisturbed(journal, next.id) && (storageFailed ==> next.id !in journal.volatileEntries)
  {
    hide Journal.Regular, Went, PerformAll, Carries, LocalStorage.Working, LocalStorage.Alone, Shows, Writable, CanSettle, UniqueIds;
    ghost var start := journal.Now();
    r := StoreDurably(journal, next, storageFailed);
    if r.Failure? && r.error.StorageUnavailable? {
      ghost var failed := journal.Now();
      var stored := journal.SaveVolatile(next);
      NextRevisionCarries(next);
      WentOn(journal.storage, start, failed, journal.Now());
      VolatileIsShown(journal, stored);
      r := Success(stored);
    }
  }

  lemma VolatileIsShown(journal: Journal, e: Entry)
    ensures e.id in journal.volatileEntries && journal.volatileEntries[e.id] == e ==> Shows(journal, e)
  {
  }

  /** save or retryDurableSave. */
  method StoreDurably(journal: Journal, next: Entry, storageFailed: bool) returns (r: Result<Entry, JournalError>)
    requires journal.Valid()
    modifies journal, journal.storage
    ensures journal.Valid() && Went(journal.storage, old(journal.Now()), journal.Now())
    ensures |journal.calls| == |old(journal.calls)| + 1 && journal.calls[..|old(journal.calls)|] == old(journal.calls)
    ensures var c := journal.calls[|old(journal.calls)|];
            && c.entry == next && c.succeeds == r.Success?
            && c.kind == if storageFailed && next.id in old(journal.volatileEntries) then RetryCall else SaveCall
    ensures r.Success? ==> Carries(r.value, next) && r.value.revision >= 1 && Shows(journal, r.value)
    ensures r.Failure? ==> journal.volatileEntries == old(journal.volatileEntries)
    ensures r.Failure? && r.error.StorageUnavailable? ==> next.id in journal.writeIssues && !old(journal.storage.Working())
    ensures old(InOrder(journal, next)) ==> journal.Regular(next.id, next.intent)
    ensures old(Undisturbed(journal, next.id)) && Writable(old(journal.Contents()), next)
            && storageFailed == (old(journal.writeIssues) != {}) ==>
              r.Success? && Undisturbed(journal, next.id) && (storageFailed ==> next.id !in journal.volatileEntries)
  {
    hide Journal.Regular, Went, PerformAll, Carries, LocalStorage.Working, LocalStorage.Alone, LocalStorage.OthersOn, Find,
         DurableSave, DurableRetry, UniqueIds;
    ghost var before, start := journal.Now(), journal.Contents();
    ghost var at;
    if !storageFailed || next.id !in journal.volatileEntries {
      ghost var c;
      r, c := SaveAndShow(journal, next);
      if r.Success? {
        NextRevisionCarries(next);
      }
    } else {
      r, at := journal.RetryDurableSave(next);
      if r.Success? {
        var w := RetryOf(next, start.bases[next.id]);
        StoredCarries(at, w);
        WriteIsCompareAndSwap(at, w, next.id);
      } else {
        CanRetry(at, next, start.bases[next.id]);
      }
    }
    UniqueGoesOn(journal.storage, before, journal.Now());
  }

  lemma CanRetry(at: seq<Entry>, e: Entry, base: nat)
    ensures RevisionIn(at, e.id) == base ==> Perform(at, RetryOf(e, base)).Success?
  {
  }

  lemma NextRevisionCarries(next: Entry)
    ensures Carries(next.(revision := next.revision + 1), next)
  {
  }

  // ---- one update ----

  /** The version an update takes: what the tab shows, or, if it cannot show the operation, the version it was given. */
  ghost predicate IsLatest(current: Entry, entry: Entry, v: Local) {
    current.id == entry.id && (InView(v.durable, v.overlay, current) || (current == entry && entry.id !in v.overlay))
  }

  method LatestEntry(journal: Journal, entry: Entry) returns (latest: Entry, readable: bool)
    requires journal.Valid()
    modifies journal.storage`clock
    ensures IsLatest(latest, entry, journal.Contents())
    ensures old(journal.storage.Working()) ==>
              && journal.storage.Working() && readable
              && (ShownOf(journal.Contents(), entry.id).Some? && UniqueIds(journal.storage.entries) ==>
                    ShownOf(journal.Contents(), entry.id) == Some(latest))
    ensures old(journal.storage.Alone()) ==> journal.storage.Alone()
    ensures old(Undisturbed(journal, entry.id)) ==> Undisturbed(journal, entry.id)
  {
    hide UniqueIds, LocalStorage.Working, LocalStorage.Alone, Find;
    var current;
    current, readable := journal.Current(entry.id);
    latest := if current.Some? then current.value else entry;
    if current.Some? && UniqueIds(journal.storage.entries) {
      ShownIsInView(journal.Contents(), current.value);
    }
  }

  lemma LatestIsInOrder(journal: Journal, entry: Entry, latest: Entry)
    requires IsLatest(latest, entry, journal.Contents())
    ensures InOrder(journal, entry) ==> InOrder(journal, latest) && latest.intent == entry.intent
  {
    if latest != entry {
      ShownIsInOrder(journal, entry, Some(latest));
    }
  }

  /** A newer verification has taken the entry over. */
  predicate TakenOver(current: Entry, requestId: Option<string>) {
    requestId.Some? && current.verificationRequestId != requestId
  }

  /** One update: the entry and the values it was asked for, the version it took, and the journal around it. */
  datatype Updating = Updating(entry: Entry, values: Values, requestId: Option<string>, current: Entry, before: Moment, after: Moment)

  /** It wrote the values over the latest version; or nothing, if a newer verification had taken the entry over. */
  ghost predicate IsUpdate(storage: LocalStorage, u: Updating) {
    && Went(storage, u.before, u.after) && IsLatest(u.current, u.entry, u.before.held)
    && if TakenOver(u.current, u.requestId) then u.after == u.before
       else IsWriteBack(u.after.calls[|u.before.calls|..], With(u.current, u.values))
  }

  /** Its values are stored, durably or in the overlay. */
  predicate Wrote(u: Updating) {
    !TakenOver(u.current, u.requestId) && u.after.calls != [] && u.after.calls[|u.after.calls| - 1].succeeds
  }

  datatype Updated = Applied(entry: Entry) | NotApplied(entry: Entry) | UpdateThrew(error: JournalError)

  /** update: writes new values over the latest version, unless a newer verification has taken the entry over.
      Storage counts as failed when it cannot be read now, or the last write of some entry failed. */
  method Update(journal: Journal, entry: Entry, values: Values, requestId: Option<string>) returns (r: Updated, ghost u: Updating)
    requires journal.Valid()
    modifies journal, journal.storage
    ensures journal.Valid() && IsUpdate(journal.storage, u)
    ensures u == Updating(entry, values, requestId, u.current, old(journal.Now()), journal.Now())
    ensures TakenOver(u.current, requestId) ==> r == NotApplied(u.current)
    ensures r.Applied? ==> !TakenOver(u.current, requestId) && Carries(r.entry, With(u.current, values)) && Shows(journal, r.entry)
    ensures r.Applied? ==> ShownOf(u.after.held, entry.id) == Some(r.entry)
    ensures r.Applied? ==> r.entry.id == entry.id && r.entry.verificationRequestId == With(u.current, values).verificationRequestId
    ensures r.NotApplied? ==> IsLatest(r.entry, entry, journal.Contents())
    ensures !r.Applied? ==> journal.volatileEntries == old(journal.volatileEntries)
    ensures old(InOrder(journal, entry)) ==>
              && journal.Regular(entry.id, entry.intent)
              && CallsFit(old(journal.calls), journal.calls, entry.id, entry.intent)
              && (!r.UpdateThrew? ==> Fits(r.entry, entry.id, entry.intent))
    ensures r.Applied? <==> Wrote(u)
    ensures old(Undisturbed(journal, entry.id)) && ShownOf(old(journal.Contents()), entry.id).Some? ==>
              && Undisturbed(journal, entry.id) && Some(u.current) == ShownOf(old(journal.Contents()), entry.id)
              && (r.Applied? <==> !TakenOver(u.current, requestId))
              && (r.Applied? && old(journal.writeIssues) != {} ==> entry.id !in journal.volatileEntries)
  {
    hide Carries, Journal.Regular, Went, InView, With, LocalStorage.Working, LocalStorage.Alone, UniqueIds, Find, CanSettle, IsWriteBack,
         Fits;
    ghost var start := journal.Now();
    var current, readable := LatestEntry(journal, entry);
    u := Updating(entry, values, requestId, current, start, start);
    LatestIsInOrder(journal, entry, current);
    if TakenOver(current, requestId) {
      WentNowhere(journal.storage, start);
      return NotApplied(current), u;
    }
    var storageFailed := !readable || journal.writeIssues != {};
    FitsWith(current, values);
    var written := WriteBack(journal, With(current, values), storageFailed);
    u := u.(after := journal.Now());
    if written.Success? {
      CarriesFits(written.value, With(current, values));
      return Applied(written.value), u;
    }
    if !written.error.RevisionConflict? {
      return UpdateThrew(written.error), u;
    }
    var latest, _ := LatestEntry(journal, entry);
    LatestIsInOrder(journal, entry, latest);
    return NotApplied(latest), u;
  }

  lemma FitsWith(current: Entry, values: Values)
    ensures Fits(current, current.id, current.intent) ==> Fits(With(current, values), current.id, current.intent)
  {
    hide With;
  }

  lemma CarriesFits(stored: Entry, next: Entry)
    requires Carries(stored, next)
    ensures stored.id == next.id && stored.intent == next.intent && stored.status == next.status
    ensures stored.verificationRequestId == next.verificationRequestId
    ensures stored.revision >= 1 && Fits(next, next.id, next.intent) ==> Fits(stored, next.id, next.intent)
  {
  }

  // ---- the updates of one recovery ----

  /** These updates, in this order, are all the tab did; before, between and after them only other tabs wrote. */
  ghost predicate AreUpdates(storage: LocalStorage, a: Moment, us: seq<Updating>, b: Moment)
    decreases |us|
  {
    if us == [] then a.calls == b.calls && Waited(storage, a.held, b.held)
    else
      var last := us[|us| - 1];
      && AreUpdates(storage, a, us[..|us| - 1], last.before) && IsUpdate(storage, last)
      && last.after.calls == b.calls && Waited(storage, last.after.held, b.held)
  }

  lemma NoUpdatesYet(storage: LocalStorage, a: Moment)
    ensures AreUpdates(storage, a, [], a)
  {
    hide Waited;
    WaitedForNobody(storage, a.held);
  }

  lemma UpdatesWait(storage: LocalStorage, a: Moment, us: seq<Updating>, b: Moment, c: Moment)
    requires AreUpdates(storage, a, us, b) && b.calls == c.calls && Waited(storage, b.held, c.held)
    ensures AreUpdates(storage, a, us, c)
  {
    hide Waited, IsUpdate;
    WaitedOn(storage, if us == [] then a.held else us[|us| - 1].after.held, b.held, c.held);
  }

  lemma OneMoreUpdate(storage: LocalStorage, a: Moment, us: seq<Updating>, u: Updating)
    requires AreUpdates(storage, a, us, u.before) && IsUpdate(storage, u)
    ensures AreUpdates(storage, a, us + [u], u.after)
  {
    hide Waited, IsUpdate;
    WaitedForNobody(storage, u.after.held);
    assert (us + [u])[..|us|] == us;
  }

  lemma {:induction false} UpdatesGoOn(storage: LocalStorage, a: Moment, us: seq<Updating>, b: Moment, more: seq<Updating>, c: Moment)
    requires AreUpdates(storage, a, us, b) && AreUpdates(storage, b, more, c)
    decreases |more|
    ensures AreUpdates(storage, a, us + more, c)
  {
    hide Waited, IsUpdate;
    if more == [] {
      assert us + more == us;
      UpdatesWait(storage, a, us, b, c);
    } else {
      var last := more[|more| - 1];
      UpdatesGoOn(storage, a, us, b, more[..|more| - 1], last.before);
      assert (us + more)[..|us + more| - 1] == us + more[..|more| - 1];
    }
  }

  /** An update stores the call's entry. */
  ghost predicate Stores(u: Updating, c: Call) {
    !TakenOver(u.current, u.requestId) && c.entry == With(u.current, u.values)
  }

  /** Every write between the two moments stores one of the updates. */
  lemma {:induction false} UpdatesExplain(storage: LocalStorage, a: Moment, us: seq<Updating>, b: Moment)
    requires AreUpdates(storage, a, us, b)
    decreases |us|
    ensures Went(storage, a, b)
    ensures a.calls <= b.calls && forall i :: |a.calls| <= i < |b.calls| ==> exists u <- us :: Stores(u, b.calls[i])
  {
    hide Waited, With, IsLatest, Explains;
    if us == [] {
      WentWaiting(storage, a, b);
    } else {
      var last := us[|us| - 1];
      UpdatesExplain(storage, a, us[..|us| - 1], last.before);
      WentOn(storage, a, last.before, last.after);
      WentWaiting(storage, last.after, b);
      WentOn(storage, a, last.after, b);
      forall i | |a.calls| <= i < |b.calls| ensures exists u <- us :: Stores(u, b.calls[i]) {
        if i < |last.before.calls| {
          assert b.calls[i] == last.before.calls[i];
          var u :| u in us[..|us| - 1] && Stores(u, last.before.calls[i]);
        } else {
          var c := last.after.calls[|last.before.calls|..][i - |last.before.calls|];
          assert c == b.calls[i];
          assert last in us && Stores(last, c);
        }
      }
    }
  }

  // ---- recovery of one entry ----

  /** What a funding observation means for the entry. */
  function ProjectionOf(o: FundingObservation.Observation): Projection {
    if o.coverage.NotReached? then NotReached
    else if o.coverage.Unverifiable? then Unverifiable
    else if o.eventLookup.Matched? && o.effect.Consistent? then Reflected
    else ProjectionInconsistent
  }

  /** The read model's answer is asked for only once finality, where it can be observed, is proved. */
  predicate AwaitsFinality(e: Entry, proof: Option<FinalityProof>) {
    proof.Some? && e.intent.chainId != 31337 && e.finality != Some(Finalized)
  }

  function ObservationValues(found: Inspected, snapshot: Snapshot): Values
    requires found.FoundSuccess? && found.event.Some?
  {
    ObservedAs(found.hash, found.blockHash, found.event.value.logIndex, ProjectionOf(snapshot.observation), snapshot.buildId)
  }

  /** The first update of a recovery: it marks the entry as being verified under a new request, or as lacking a hash. */
  ghost predicate Begins(u: Updating, requested: Entry, candidate: Option<Hash>, requestId: string) {
    && u.requestId.None? && IsLatest(u.entry, requested, u.before.held)
    && u.values == if Over(HashOf(u.entry), candidate).Some? then Marking(requestId) else HashMissing
  }

  /** The second: the result of inspecting the hash, for the entry as it was once marked. */
  ghost predicate Inspects(u: Updating, begun: Updating, candidate: Option<Hash>, found: Inspected, proof: Option<FinalityProof>,
                           requestId: string) {
    && begun.values.Marking? && u.requestId == Some(requestId) && IsLatest(u.entry, begun.entry, begun.after.held)
    && u.values.Result? && Some(u.values.hash) == Over(HashOf(begun.entry), candidate)
    && u.values == Result(u.entry, candidate, u.values.hash, found, proof)
  }

  /** The others: what came of observing the projection of a funding that was included. */
  ghost predicate Observes(u: Updating, found: Inspected, observed: Option<Snapshot>, requestId: string) {
    && found.FoundSuccess? && found.event.Some? && u.requestId == Some(requestId)
    && (u.values.SaleMissing? || u.values.Unobserved? || (observed.Some? && u.values == ObservationValues(found, observed.value)))
  }

  ghost predicate IsRecovery(us: seq<Updating>, requested: Entry, candidate: Option<Hash>, found: Inspected,
                             proof: Option<FinalityProof>, observed: Option<Snapshot>, requestId: string) {
    && us != [] && Begins(us[0], requested, candidate, requestId)
    && (|us| > 1 ==> Inspects(us[1], us[0], candidate, found, proof, requestId))
    && (forall i :: 2 <= i < |us| ==> Observes(us[i], found, observed, requestId))
  }

  /** Every write of the recovery is of one of its updates and sets the status only as that update may. */
  ghost predicate WritesFinally(a: Moment, us: seq<Updating>, b: Moment, found: Inspected) {
    a.calls <= b.calls
    && forall i :: |a.calls| <= i < |b.calls| ==> exists u <- us :: StoresFinally(u, b.calls[i], found)
  }

  ghost predicate StoresFinally(u: Updating, c: Call, found: Inspected) {
    Stores(u, c) && SetsStatus(u.values, u.current.status, c.entry.status) && (u.values.Result? ==> u.values.found == found)
  }

  /** No write of a recovery gives the intent up but for a reverted or replaced transaction, or where the version it
      took was given up already. */
  lemma RecoveryWritesFinally(storage: LocalStorage, a: Moment, us: seq<Updating>, b: Moment, requested: Entry,
                              candidate: Option<Hash>, found: Inspected, proof: Option<FinalityProof>,
                              observed: Option<Snapshot>, requestId: string)
    requires AreUpdates(storage, a, us, b) && IsRecovery(us, requested, candidate, found, proof, observed, requestId)
    ensures WritesFinally(a, us, b, found)
  {
    hide AreUpdates, SetsStatus, With, IsRecovery;
    UpdatesExplain(storage, a, us, b);
    forall i | |a.calls| <= i < |b.calls| ensures exists u <- us :: StoresFinally(u, b.calls[i], found) {
      var u :| u in us && Stores(u, b.calls[i]);
      WithSetsStatus(u.current, u.values);
      var k :| 0 <= k < |us| && us[k] == u;
      if u.values.Result? {
        OnlyTheSecondIsAResult(us, k, requested, candidate, found, proof, observed, requestId);
      }
      assert StoresFinally(u, b.calls[i], found);
    }
  }

  lemma OnlyTheSecondIsAResult(us: seq<Updating>, k: nat, requested: Entry, candidate: Option<Hash>, found: Inspected,
                               proof: Option<FinalityProof>, observed: Option<Snapshot>, requestId: string)
    requires IsRecovery(us, requested, candidate, found, proof, observed, requestId) && k < |us| && us[k].values.Result?
    ensures k == 1 && us[k].values.found == found
  {
    hide HashOf, IsLatest;
  }

  function WrittenOf(written: Updated): Option<Entry> {
    if written.Applied? then Some(written.entry) else None
  }

  function Outcome(written: Updated, applied: RecoveryResult): RecoveryResult {
    match written
    case Applied(_) => applied
    case NotApplied(_) => Superseded
    case UpdateThrew(error) => WriteThrew(error)
  }

  lemma ShownIsLatest(journal: Journal, shown: Entry, entry: Entry)
    requires Shows(journal, shown) && shown.id == entry.id
    ensures IsLatest(shown, entry, journal.Contents())
  {
  }

  /** While the chain or the read model is asked, other tabs write. */
  method AwaitAnswer(journal: Journal, ghost e: Entry)
    requires journal.Valid()
    modifies journal.storage
    ensures journal.Valid() && journal.Now().calls == old(journal.Now()).calls
    ensures Waited(journal.storage, old(journal.Now()).held, journal.Now().held)
    ensures old(InOrder(journal, e)) ==> InOrder(journal, e)
    ensures old(Undisturbed(journal, e.id)) ==>
              && Undisturbed(journal, e.id) && journal.Contents() == old(journal.Contents())
              && (old(Shows(journal, e)) ==> Shows(journal, e))
  {
    hide Journal.Regular, Waited, CanSettle, UniqueIds, LocalStorage.Working, LocalStorage.Alone, Fits, Find;
    AwaitOthers(journal);
  }

  datatype Begun = NotBegun(result: RecoveryResult) | Begun(verifying: Entry, hash: Hash)

  /** Marks the entry as being verified, if there is a hash to verify. */
  method BeginVerification(journal: Journal, requested: Entry, candidate: Option<Hash>, requestId: string)
    returns (r: Begun, ghost u: Updating)
    requires journal.Valid()
    modifies journal, journal.storage
    ensures journal.Valid() && IsUpdate(journal.storage, u) && u.before == old(journal.Now()) && u.after == journal.Now()
    ensures Begins(u, requested, candidate, requestId)
    ensures if r.Begun? then
              && u.values.Marking? && Some(r.hash) == Over(HashOf(u.entry), candidate)
              && IsLatest(r.verifying, u.entry, journal.Contents()) && r.verifying.id == requested.id
            else r.result.WriteThrew? || (r.result.HashRequired? && u.values.HashMissing?)
    ensures old(Undisturbed(journal, requested.id)) && ShownOf(old(journal.Contents()), requested.id).Some? ==>
              && Undisturbed(journal, requested.id)
              && if u.values.HashMissing? then r == NotBegun(HashRequired)
                 else r.Begun? && r.verifying.verificationRequestId == Some(requestId)
                      && ShownOf(journal.Contents(), requested.id) == Some(r.verifying)
    ensures old(InOrder(journal, requested)) ==>
              && journal.Regular(requested.id, requested.intent)
              && CallsFit(old(journal.calls), journal.calls, requested.id, requested.intent)
              && (r.Begun? ==> InOrder(journal, r.verifying) && r.verifying.intent == requested.intent)
  {
    hide InView, Journal.Regular, CallsFit, IsUpdate, Carries, HashOf, Undisturbed, UniqueIds, Find, AfterInspection,
         LocalStorage.Working, LocalStorage.Alone;
    var entry, _ := LatestEntry(journal, requested);
    LatestIsInOrder(journal, requested, entry);
    var hash := if candidate.Some? then candidate else HashOf(entry);
    if hash.None? {
      var unknown;
      unknown, u := Update(journal, entry, HashMissing, None);
      return NotBegun(if unknown.UpdateThrew? then WriteThrew(unknown.error) else HashRequired), u;
    }
    var begun;
    begun, u := Update(journal, entry, Marking(requestId), None);
    if begun.UpdateThrew? {
      return NotBegun(WriteThrew(begun.error)), u;
    }
    if begun.Applied? {
      CarriesFits(begun.entry, With(u.current, u.values));
      ShownIsLatest(journal, begun.entry, entry);
    }
    return Begun(begun.entry, hash.value), u;
  }

  /** What recovery verified and wrote: the entry as verification began, the hash, and the entry with the result. */
  datatype Verified = Verified(verifying: Entry, hash: Hash, written: Entry)

  /** This update wrote it: the inspection's result over a version of this very verification. */
  ghost predicate WroteResult(v: Verified, u: Updating) {
    && u.entry == v.verifying && u.values.Result? && u.values.hash == v.hash && Wrote(u)
    && Carries(v.written, With(u.current, u.values)) && ShownOf(u.after.held, v.written.id) == Some(v.written)
  }

  /** apply: what the inspection found, unless another verification has taken the entry over since. */
  method ApplyInspection(journal: Journal, verifying: Entry, candidate: Option<Hash>, hash: Hash, found: Inspected,
                         proof: Option<FinalityProof>, requestId: string)
    returns (r: Updated, ghost u: Updating)
    requires journal.Valid()
    modifies journal, journal.storage
    ensures journal.Valid() && AreUpdates(journal.storage, old(journal.Now()), [u], journal.Now())
    ensures u.entry == verifying && u.values == Values.Result(verifying, candidate, hash, found, proof) && u.requestId == Some(requestId)
    ensures r.Applied? <==> Wrote(u)
    ensures r.Applied? ==>
              && WroteResult(Verified(verifying, hash, r.entry), u) && r.entry.id == verifying.id && Shows(journal, r.entry)
              && r.entry.verificationRequestId == Some(requestId)
    ensures old(InOrder(journal, verifying)) ==>
              && journal.Regular(verifying.id, verifying.intent)
              && CallsFit(old(journal.calls), journal.calls, verifying.id, verifying.intent)
              && (r.Applied? ==> Fits(r.entry, verifying.id, verifying.intent))
    ensures old(Undisturbed(journal, verifying.id)) && ShownOf(old(journal.Contents()), verifying.id) == Some(verifying)
            && verifying.verificationRequestId == Some(requestId) ==>
              Undisturbed(journal, verifying.id) && r.Applied?
  {
    hide InView, Journal.Regular, CallsFit, Fits, IsUpdate, Carries, With, Waited, AreUpdates, Find, IsLatest, Undisturbed, Wrote, Shows;
    ghost var start := journal.Now();
    NoUpdatesYet(journal.storage, start);
    AwaitAnswer(journal, verifying);
    UpdatesWait(journal.storage, start, [], start, journal.Now());
    r, u := Update(journal, verifying, Values.Result(verifying, candidate, hash, found, proof), Some(requestId));
    OneMoreUpdate(journal.storage, start, [], u);
    assert [] + [u] == [u];
  }

  /** Marks, inspects and stores; or why it does not. */
  method VerifyEntry(journal: Journal, requested: Entry, candidate: Option<Hash>, requestId: string, found: Inspected,
                     proof: Option<FinalityProof>)
    returns (r: Result<Verified, RecoveryResult>, ghost us: seq<Updating>)
    requires journal.Valid()
    modifies journal, journal.storage
    ensures journal.Valid() && AreUpdates(journal.storage, old(journal.Now()), us, journal.Now()) && 1 <= |us| <= 2
    ensures Begins(us[0], requested, candidate, requestId)
    ensures |us| == 2 ==> Inspects(us[1], us[0], candidate, found, proof, requestId)
    ensures r.Success? <==> |us| == 2 && Wrote(us[1])
    ensures r.Success? ==>
              && WroteResult(r.value, us[1]) && r.value.written.id == requested.id && Shows(journal, r.value.written)
              && r.value.written.verificationRequestId == Some(requestId)
    ensures old(Undisturbed(journal, requested.id)) && ShownOf(old(journal.Contents()), requested.id).Some? ==>
              && Undisturbed(journal, requested.id) && (r.Success? || r.error.HashRequired?)
    ensures r.Failure? ==> r.error.Superseded? || r.error.WriteThrew? || (r.error.HashRequired? && us[0].values.HashMissing?)
    ensures r.Failure? && r.error.Superseded? ==> |us| == 2
    ensures old(InOrder(journal, requested)) ==>
              && journal.Regular(requested.id, requested.intent)
              && CallsFit(old(journal.calls), journal.calls, requested.id, requested.intent)
              && (r.Success? ==> Fits(r.value.written, requested.id, requested.intent))
  {
    hide InView, Journal.Regular, CallsFit, Fits, IsUpdate, Carries, With, HashOf, Waited, AreUpdates, Find, Begins, Undisturbed, Wrote,
         WroteResult;
    ghost var start := journal.Now();
    NoUpdatesYet(journal.storage, start);
    var begun;
    ghost var u;
    begun, u := BeginVerification(journal, requested, candidate, requestId);
    BeginsWithRequested(u, requested, candidate, requestId);
    OneMoreUpdate(journal.storage, start, [], u);
    us := [] + [u];
    if begun.NotBegun? {
      return Failure(begun.result), us;
    }
    ghost var marked := journal.Now();
    var applied;
    applied, u := ApplyInspection(journal, begun.verifying, candidate, begun.hash, found, proof, requestId);
    UpdatesGoOn(journal.storage, start, us, marked, [u], journal.Now());
    us := us + [u];
    if old(InOrder(journal, requested)) {
      CallsFitOn(start.calls, marked.calls, journal.calls, requested.id, requested.intent);
    }
    if !applied.Applied? {
      return Failure(Outcome(applied, Superseded)), us;
    }
    return Success(Verified(begun.verifying, begun.hash, applied.entry)), us;
  }

  lemma BeginsWithRequested(u: Updating, requested: Entry, candidate: Option<Hash>, requestId: string)
    requires Begins(u, requested, candidate, requestId)
    ensures u.entry.id == requested.id && (u.values.HashMissing? ==> candidate.None?)
  {
    hide HashOf;
  }

  /** After an inclusion of a funding: does the read model reflect it? `observed` is what the observation returns,
      if it does. */
  method ObserveProjection(journal: Journal, included: Entry, found: Inspected, proof: Option<FinalityProof>,
                           observed: Option<Snapshot>, requestId: string)
    returns (r: RecoveryResult, ghost last: Option<Entry>, ghost us: seq<Updating>)
    requires journal.Valid() && found.FoundSuccess? && found.event.Some?
    modifies journal, journal.storage
    ensures journal.Valid() && AreUpdates(journal.storage, old(journal.Now()), us, journal.Now())
    ensures forall u <- us :: u.entry == included && Observes(u, found, observed, requestId)
    ensures last.Some? ==>
              && us != [] && Shows(journal, last.value) && last.value.id == included.id
              && Carries(last.value, With(us[|us| - 1].current, us[|us| - 1].values))
    ensures last.Some? <==> us != [] && Wrote(us[|us| - 1])
    ensures old(Undisturbed(journal, included.id)) && old(Shows(journal, included)) && included.verificationRequestId == Some(requestId) ==>
              !r.Superseded? && !r.WriteThrew?
    ensures r.Included? <==> included.intent.saleId.Some? && AwaitsFinality(included, proof)
    ensures r.Included? ==> journal.Now() == old(journal.Now()) && us == []
    ensures !r.Included? ==> us != [] && (included.intent.saleId.None? <==> us[|us| - 1].values.SaleMissing?)
    ensures last.Some? <==> !r.Included? && !r.Superseded? && !r.WriteThrew?
    ensures last.Some? ==> r == Reports(us[|us| - 1].values)
    ensures old(InOrder(journal, included)) ==> CallsFit(old(journal.calls), journal.calls, included.id, included.intent)
  {
    hide *;
    ghost var start := journal.Now();
    NoUpdatesYet(journal.storage, start);
    NoCallsFit(journal.calls, included.id, included.intent);
    last, us := None, [];
    if included.intent.saleId.None? {
      r, last, us := StoreMissingSale(journal, included, found, observed, requestId);
    } else if AwaitsFinality(included, proof) {
      r := Included;
    } else {
      AwaitAnswer(journal, included);
      ghost var asked := journal.Now();
      UpdatesWait(journal.storage, start, us, start, asked);
      r, last, us := StoreObservation(journal, included, found, observed, requestId);
      UpdatesGoOn(journal.storage, start, [], asked, us, journal.Now());
      assert [] + us == us;
    }
  }

  lemma NoCallsFit(calls: seq<Call>, id: string, intent: Intent)
    ensures CallsFit(calls, calls, id, intent)
  {
  }

  /** Stores that the entry does not name its sale. */
  method StoreMissingSale(journal: Journal, included: Entry, found: Inspected, observed: Option<Snapshot>, requestId: string)
    returns (r: RecoveryResult, ghost last: Option<Entry>, ghost us: seq<Updating>)
    requires journal.Valid() && found.FoundSuccess? && found.event.Some?
    modifies journal, journal.storage
    ensures journal.Valid() && AreUpdates(journal.storage, old(journal.Now()), us, journal.Now()) && us != []
    ensures forall u <- us :: u.entry == included && Observes(u, found, observed, requestId) && u.values.SaleMissing?
    ensures last.Some? ==>
              && Shows(journal, last.value) && last.value.id == included.id
              && Carries(last.value, With(us[|us| - 1].current, us[|us| - 1].values))
    ensures last.Some? <==> Wrote(us[|us| - 1])
    ensures if last.Some? then r == Reports(us[|us| - 1].values) else r.Superseded? || r.WriteThrew?
    ensures old(Undisturbed(journal, included.id)) && old(Shows(journal, included)) && included.verificationRequestId == Some(requestId) ==>
              last.Some?
    ensures old(InOrder(journal, included)) ==> CallsFit(old(journal.calls), journal.calls, included.id, included.intent)
  {
    hide InView, Journal.Regular, IsUpdate, Carries, With, Fits, AreUpdates, Find, Undisturbed, Wrote, ProjectionOf, HashOf, IsLatest, CallsFit;
    ghost var start := journal.Now();
    ghost var u;
    NoUpdatesYet(journal.storage, start);
    var missing;
    missing, u := Update(journal, included, SaleMissing, Some(requestId));
    OneMoreUpdate(journal.storage, start, [], u);
    assert [] + [u] == [u];
    return Outcome(missing, Inconsistent), WrittenOf(missing), [u];
  }

  /** Stores what the observation says, or that there was none. */
  method StoreObservation(journal: Journal, included: Entry, found: Inspected, observed: Option<Snapshot>, requestId: string)
    returns (r: RecoveryResult, ghost last: Option<Entry>, ghost us: seq<Updating>)
    requires journal.Valid() && found.FoundSuccess? && found.event.Some?
    modifies journal, journal.storage
    ensures journal.Valid() && AreUpdates(journal.storage, old(journal.Now()), us, journal.Now()) && us != []
    ensures forall u <- us :: u.entry == included && Observes(u, found, observed, requestId) && !u.values.SaleMissing?
    ensures last.Some? ==>
              && Shows(journal, last.value) && last.value.id == included.id
              && Carries(last.value, With(us[|us| - 1].current, us[|us| - 1].values))
    ensures last.Some? <==> Wrote(us[|us| - 1])
    ensures if last.Some? then r == Reports(us[|us| - 1].values) else r.Superseded? || r.WriteThrew?
    ensures old(Undisturbed(journal, included.id)) && old(Shows(journal, included)) && included.verificationRequestId == Some(requestId) ==>
              last.Some?
    ensures old(InOrder(journal, included)) ==> CallsFit(old(journal.calls), journal.calls, included.id, included.intent)
  {
    hide InView, Journal.Regular, IsUpdate, Carries, With, Fits, AreUpdates, Find, Undisturbed, Wrote, ProjectionOf, HashOf, IsLatest;
    ghost var start, calls := journal.Now(), journal.calls;
    ghost var u;
    us := [];
    NoUpdatesYet(journal.storage, start);
    if observed.Some? {
      var values := ObservationValues(found, observed.value);
      var written;
      written, u := Update(journal, included, values, Some(requestId));
      OneMoreUpdate(journal.storage, start, us, u);
      us := us + [u];
      if !written.UpdateThrew? {
        return Outcome(written, Reports(values)), WrittenOf(written), us;
      }
    }
    ghost var before := journal.calls;
    var failed;
    failed, u := Update(journal, included, Unobserved, Some(requestId));
    OneMoreUpdate(journal.storage, start, us, u);
    if old(InOrder(journal, included)) {
      CallsFitOn(calls, before, journal.calls, included.id, included.intent);
    }
    return Outcome(failed, CannotInspect), WrittenOf(failed), us + [u];
  }

  /** What an observation that was stored means for the user. */
  function Reports(values: Values): (r: RecoveryResult)
    ensures r.ProjectionReflected? || r.ProjectionSyncing? || r.Inconsistent? || r.CannotInspect?
  {
    match values
    case ObservedAs(_, _, _, projection, _) =>
      if projection.Reflected? then ProjectionReflected else if projection.NotReached? then ProjectionSyncing else Inconsistent
    case Unobserved => CannotInspect
    case _ => Inconsistent
  }

  /** A stored observation that reflects the funding says so, for this very event. */
  lemma ReflectedIsStored(last: Entry, current: Entry, found: Inspected, observed: Snapshot)
    requires found.FoundSuccess? && found.event.Some? && ProjectionOf(observed.observation).Reflected?
    requires Carries(last, With(current, ObservationValues(found, observed)))
    ensures last.projection == Some(Reflected) && last.evidence.projectionTransactionHash == Some(found.hash)
    ensures last.projected ==
            Some(Projected(found.blockHash, found.event.value.logIndex, last.intent.deploymentId, observed.buildId))
  {
    hide ProjectionOf;
  }

  /** What the verified result leads to; the projection is observed only after an inclusion of a funding. */
  method Conclude(journal: Journal, v: Verified, found: Inspected, proof: Option<FinalityProof>, observed: Option<Snapshot>,
                  requestId: string)
    returns (r: RecoveryResult, ghost last: Option<Entry>, ghost us: seq<Updating>)
    requires journal.Valid() && Shows(journal, v.written)
    modifies journal, journal.storage
    ensures journal.Valid() && AreUpdates(journal.storage, old(journal.Now()), us, journal.Now())
    ensures forall u <- us :: u.entry == v.written && Observes(u, found, observed, requestId)
    ensures us == [] ==> Shows(journal, v.written) && last.None?
    ensures last.Some? <==> us != [] && Wrote(us[|us| - 1])
    ensures last.Some? ==> WroteLast(last.value, us[|us| - 1], v) && Shows(journal, last.value)
    ensures old(Undisturbed(journal, v.written.id)) && v.written.verificationRequestId == Some(requestId) ==> !r.Superseded? && !r.WriteThrew?
    ensures Concludes(r, v, found, proof, us, last)
    ensures r.ProjectionReflected? ==> last.Some? && Reflects(last.value, v, found, proof, observed)
    ensures old(InOrder(journal, v.written)) ==> CallsFit(old(journal.calls), journal.calls, v.written.id, v.written.intent)
  {
    hide InView, AwaitsFinality, ProjectionOf, IsUpdate, AreUpdates, With, Carries, Waited, Journal.Regular, Fits, IsFunding,
         IsLatest, Find, Undisturbed, Wrote;
    NoUpdatesYet(journal.storage, journal.Now());
    last, us := None, [];
    match found {
      case Pending => r := StillPending;
      case FoundReverted(_, _, _, _) => r := FoundRevert;
      case FoundSuccess(_, _, _, _, event) =>
        if !IsFunding(v.verifying) {
          r := Included;
        } else if event.None? {
          r := Inconsistent;
        } else {
          r, last, us := ObserveProjection(journal, v.written, found, proof, observed, requestId);
          if r.ProjectionReflected? {
            assert us[|us| - 1] in us;
            ReflectedIsStored(last.value, us[|us| - 1].current, found, observed.value);
          }
        }
      case Replaced(_, _) => r := Inconsistent;
      case Noncanonical => r := Inconsistent;
      case IntentMismatch(_) => r := RejectedCandidate;
      case ReplacementHashRequired => r := NeedsReplacementHash;
      case NotInspected(_) => r := CannotInspect;
    }
  }

  /** The last update wrote it. */
  ghost predicate WroteLast(last: Entry, u: Updating, v: Verified) {
    last.id == v.written.id && Wrote(u) && Carries(last, With(u.current, u.values))
  }

  /** A funding with its event, whose finality is proved where it can be observed, was observed as matched and
      consistent; and this is stored. */
  predicate Reflects(last: Entry, v: Verified, found: Inspected, proof: Option<FinalityProof>, observed: Option<Snapshot>) {
    && found.FoundSuccess? && found.event.Some? && IsFunding(v.verifying) && !AwaitsFinality(v.written, proof)
    && observed.Some? && ProjectionOf(observed.value.observation).Reflected?
    && last.projection == Some(Reflected) && last.evidence.projectionTransactionHash == Some(found.hash)
    && last.projected == Some(Projected(found.blockHash, found.event.value.logIndex, last.intent.deploymentId, observed.value.buildId))
  }

  /** What is reported once the result is stored. */
  predicate Concludes(r: RecoveryResult, v: Verified, found: Inspected, proof: Option<FinalityProof>, observing: seq<Updating>,
                      last: Option<Entry>) {
    match found
    case Pending => r.StillPending?
    case FoundReverted(_, _, _, _) => r.FoundRevert?
    case FoundSuccess(_, _, _, _, event) =>
      if !IsFunding(v.verifying) then r.Included?
      else if event.None? then r.Inconsistent?
      else if v.written.intent.saleId.Some? && AwaitsFinality(v.written, proof) then r.Included?
      else observing != [] && if last.Some? then r == Reports(observing[|observing| - 1].values) else r.Superseded? || r.WriteThrew?
    case Replaced(_, _) => r.Inconsistent?
    case Noncanonical => r.Inconsistent?
    case IntentMismatch(_) => r.RejectedCandidate?
    case ReplacementHashRequired => r.NeedsReplacementHash?
    case NotInspected(_) => r.CannotInspect?
  }

  lemma AlsoObserves(us: seq<Updating>, more: seq<Updating>, requested: Entry, candidate: Option<Hash>, found: Inspected,
                     proof: Option<FinalityProof>, observed: Option<Snapshot>, requestId: string)
    requires 1 <= |us| <= 2 && Begins(us[0], requested, candidate, requestId) && (more != [] ==> |us| == 2)
    requires |us| == 2 ==> Inspects(us[1], us[0], candidate, found, proof, requestId)
    requires forall u <- more :: Observes(u, found, observed, requestId)
    ensures IsRecovery(us + more, requested, candidate, found, proof, observed, requestId)
    ensures us + [] == us && (|us| == 2 ==> (us + more)[2..] == more)
    ensures more != [] ==> (us + more)[|us + more| - 1] == more[|more| - 1]
  {
    hide Begins, Inspects, Observes;
  }

  /** resumeJournalEntry. `found`, `proof` and `observed` are what the chain and the read model answer once asked; a
      reader that cannot observe finality has no proof. `updates` are all it does to the journal. Every write is an
      enabled step of the submission protocol, as long as the entry is a saved one and other tabs keep its operation's
      intent. */
  method ResumeJournalEntry(journal: Journal, requested: Entry, candidate: Option<Hash>, requestId: string, found: Inspected,
                            proof: Option<FinalityProof>, observed: Option<Snapshot>)
    returns (r: RecoveryResult, ghost updates: seq<Updating>, ghost verified: Option<Verified>, ghost last: Option<Entry>)
    requires journal.Valid()
    modifies journal, journal.storage
    ensures journal.Valid() && AreUpdates(journal.storage, old(journal.Now()), updates, journal.Now())
    ensures IsRecovery(updates, requested, candidate, found, proof, observed, requestId)
    ensures WritesFinally(old(journal.Now()), updates, journal.Now(), found)
    ensures old(InOrder(journal, requested)) ==> AreWrites(old(journal.calls), journal.calls, requested.id, requested.intent)
    ensures verified.Some? <==> |updates| >= 2 && Wrote(updates[1])
    ensures verified.Some? ==>
              && WroteResult(verified.value, updates[1]) && verified.value.written.id == requested.id
              && (|updates| == 2 ==> Shows(journal, verified.value.written))
              && (forall u <- updates[2..] :: u.entry == verified.value.written)
    ensures verified.None? ==>
              |updates| <= 2 && (r.Superseded? || r.WriteThrew? || (r.HashRequired? && updates[0].values.HashMissing?))
    ensures verified.Some? ==> Concludes(r, verified.value, found, proof, updates[2..], last)
    ensures last.Some? <==> |updates| > 2 && Wrote(updates[|updates| - 1])
    ensures last.Some? ==>
              verified.Some? && WroteLast(last.value, updates[|updates| - 1], verified.value) && Shows(journal, last.value)
    ensures old(Undisturbed(journal, requested.id)) && ShownOf(old(journal.Contents()), requested.id).Some? ==>
              !r.Superseded? && !r.WriteThrew?
    ensures r.ProjectionReflected? ==>
              verified.Some? && last.Some? && Reflects(last.value, verified.value, found, proof, observed)
  {
    hide InView, AwaitsFinality, ProjectionOf, IsUpdate, AreUpdates, IsRecovery, Begins, Inspects, Observes, With, Carries, Shows, Waited,
         WritesFinally, WroteLast, Reflects, IsLatest, Wrote, Undisturbed, Journal.Regular, CallsFit, AreWrites, HashOf, Concludes, WroteResult;
    ghost var start := journal.Now();
    verified, last := None, None;
    var v;
    v, updates := VerifyEntry(journal, requested, candidate, requestId, found, proof);
    AlsoObserves(updates, [], requested, candidate, found, proof, observed, requestId);
    if v.Failure? {
      r := v.error;
    } else {
      verified := Some(v.value);
      ghost var marked, more := journal.Now(), [];
      r, last, more := Conclude(journal, v.value, found, proof, observed, requestId);
      UpdatesGoOn(journal.storage, start, updates, marked, more, journal.Now());
      AlsoObserves(updates, more, requested, candidate, found, proof, observed, requestId);
      updates := updates + more;
      if old(InOrder(journal, requested)) {
        CallsFitOn(start.calls, marked.calls, journal.calls, requested.id, requested.intent);
      }
    }
    RecoveryWritesFinally(journal.storage, start, updates, journal.Now(), requested, candidate, found, proof, observed, requestId);
    if old(InOrder(journal, requested)) {
      UpdatesExplain(journal.storage, start, updates, journal.Now());
      CallsAreWrites(journal.storage, start, journal.Now(), requested.id, requested.intent);
    }
  }
}
