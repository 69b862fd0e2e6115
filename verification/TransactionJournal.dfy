/** The browser's transaction journal as a value: entries, their revisions, and the two durable writes. */
module TransactionJournal {
  import opened Wrappers
  import opened Domain

  datatype TxStatus =
    | Idle | Preparing | AwaitingWallet | Rejected | FailedBeforeSubmit | Submitted | IncludedSuccess
    | IncludedReverted | Unknown | ReplacedOrCancelled | Orphaned

  /** What an operation is meant to do, as its entry records it. */
  datatype Intent = Intent(
    deploymentId: string, chainId: nat, account: string, protocolVersion: string, action: string,
    saleId: Option<string>, tokenId: Option<string>, contract: string, calldata: string, valueWei: string)

  datatype TxReceiptStatus = ReceiptSuccess | ReceiptReverted
  datatype Association = ExactSubmission | IntentMatch
  datatype EvidenceSource = WalletReturned | UserSupplied
  datatype WalletOutcome = OutcomeRejected | OutcomeUnknown
  datatype Availability = Verifying | Available | Unavailable
  datatype FinalityStatus = Finalized | Unfinalized | FinalityUnknown
  datatype Projection = Reflected | NotReached | Unverifiable | ProjectionInconsistent
  datatype Projected = Projected(blockHash: Hash, logIndex: nat, deploymentId: string, buildId: string)
  datatype FinalizedHead = FinalizedHead(number: nat, hash: Hash)
  datatype FundingEvent = FundingEvent(logIndex: nat, buyer: string, amountWei: nat)
  datatype ReplacementKind = Repriced | Cancelled | DifferentCall

  /** What ties an entry to a transaction. */
  datatype Evidence = Evidence(
    currentTxHash: Option<Hash>, originalTxHash: Option<Hash>, receiptStatus: Option<TxReceiptStatus>,
    receiptBlockHash: Option<Hash>, association: Option<Association>, projectionTransactionHash: Option<Hash>,
    eventLogIndex: Option<nat>)

  const NO_EVIDENCE := Evidence(None, None, None, None, None, None, None)

  /** A revision of 0 is an entry that was never saved. */
  datatype Entry = Entry(
    id: string, revision: nat, intent: Intent, status: TxStatus, walletRequestStartedAt: Option<string>,
    evidence: Evidence, evidenceSource: Option<EvidenceSource>, outcome: Option<WalletOutcome>,
    verificationRequestId: Option<string>, availability: Option<Availability>, lastError: Option<string>,
    receiptBlockNumber: Option<nat>, finality: Option<FinalityStatus>, finalizedHead: Option<FinalizedHead>,
    event: Option<FundingEvent>, replacementKind: Option<ReplacementKind>, projection: Option<Projection>, projected: Option<Projected>)

  datatype JournalError = RevisionConflict | StorageInvalid | StorageUnavailable

  /** toLowerCase on hex text. */
  function Lower(s: string): (t: string)
    ensures |t| == |s|
  {
    seq(|s|, i requires 0 <= i < |s| => if 'A' <= s[i] <= 'Z' then s[i] + 32 as char else s[i])
  }

  predicate HasEvidence(e: Entry) {
    e.evidence != NO_EVIDENCE
  }

  /** sameOperationIntent: the same operation and wallet request, up to the case of its addresses. */
  predicate SameOperationIntent(a: Entry, b: Entry) {
    && a.id == b.id && a.intent.deploymentId == b.intent.deploymentId && a.intent.chainId == b.intent.chainId
    && Lower(a.intent.account) == Lower(b.intent.account) && a.intent.protocolVersion == b.intent.protocolVersion
    && a.intent.action == b.intent.action && a.intent.saleId == b.intent.saleId && a.intent.tokenId == b.intent.tokenId
    && Lower(a.intent.contract) == Lower(b.intent.contract) && Lower(a.intent.calldata) == Lower(b.intent.calldata)
    && a.intent.valueWei == b.intent.valueWei && a.walletRequestStartedAt == b.walletRequestStartedAt
  }

  /** A present field of `b`, else that of `a`. */
  function Over<T>(a: Option<T>, b: Option<T>): Option<T> {
    if b.Some? then b else a
  }

  function OverEvidence(a: Evidence, b: Evidence): Evidence {
    Evidence(Over(a.currentTxHash, b.currentTxHash), Over(a.originalTxHash, b.originalTxHash),
             Over(a.receiptStatus, b.receiptStatus), Over(a.receiptBlockHash, b.receiptBlockHash),
             Over(a.association, b.association), Over(a.projectionTransactionHash, b.projectionTransactionHash),
             Over(a.eventLogIndex, b.eventLogIndex))
  }

  /** rebaseUniqueVolatileEvidence: only when the volatile entry alone has evidence. */
  function Rebase(durable: Option<Entry>, volatile: Entry): Option<Entry> {
    if durable.None? || !SameOperationIntent(durable.value, volatile) || HasEvidence(durable.value) || !HasEvidence(volatile)
    then None
    else
      Some(volatile.(revision := durable.value.revision,
                     evidence := OverEvidence(durable.value.evidence, volatile.evidence),
                     evidenceSource := Over(durable.value.evidenceSource, volatile.evidenceSource),
                     outcome := Over(durable.value.outcome, volatile.outcome),
                     receiptBlockNumber := Over(durable.value.receiptBlockNumber, volatile.receiptBlockNumber),
                     finality := Over(durable.value.finality, volatile.finality),
                     finalizedHead := Over(durable.value.finalizedHead, volatile.finalizedHead),
                     event := Over(durable.value.event, volatile.event),
                     replacementKind := Over(durable.value.replacementKind, volatile.replacementKind),
                     projection := Over(durable.value.projection, volatile.projection),
                     projected := Over(durable.value.projected, volatile.projected)))
  }

  // ---- the durable list ----

  function Find(entries: seq<Entry>, id: string): (r: Option<Entry>)
    ensures r.Some? ==> r.value in entries && r.value.id == id
    ensures r.None? ==> forall e <- entries :: e.id != id
  {
    if entries == [] then None else if entries[0].id == id then Some(entries[0]) else Find(entries[1..], id)
  }

  function Without(entries: seq<Entry>, id: string): (r: seq<Entry>)
    ensures forall e :: e in r <==> e in entries && e.id != id
  {
    if entries == [] then []
    else if entries[0].id == id then Without(entries[1..], id)
    else [entries[0]] + Without(entries[1..], id)
  }

  function RevisionIn(entries: seq<Entry>, id: string): nat {
    match Find(entries, id) case None => 0 case Some(e) => e.revision
  }

  ghost predicate UniqueIds(entries: seq<Entry>) {
    forall i, j :: 0 <= i < j < |entries| ==> entries[i].id != entries[j].id
  }

  function Replaced(entries: seq<Entry>, e: Entry): seq<Entry> {
    Without(entries, e.id) + [e]
  }

  datatype Written = Written(entries: seq<Entry>, stored: Entry)

  /** The locked part of save. */
  function DurableSave(entries: seq<Entry>, e: Entry): Result<Written, JournalError> {
    if RevisionIn(entries, e.id) != e.revision then Failure(RevisionConflict)
    else
      var stored := e.(revision := e.revision + 1);
      Success(Written(Replaced(entries, stored), stored))
  }

  /** The locked part of retryDurableSave, for a volatile entry first made on top of revision `base`. */
  function DurableRetry(entries: seq<Entry>, e: Entry, base: nat): Result<Written, JournalError> {
    var current := Find(entries, e.id);
    var candidate := if RevisionIn(entries, e.id) == base then Some(e) else Rebase(current, e);
    if candidate.None? then Failure(RevisionConflict)
    else
      var stored := candidate.value.(revision := RevisionIn(entries, e.id) + 1);
      Success(Written(Replaced(entries, stored), stored))
  }

  /** withVolatile: the overlay hides durable entries of the same operation. */
  ghost predicate InView(durable: seq<Entry>, volatile: map<string, Entry>, e: Entry) {
    (e in durable && e.id !in volatile) || (e.id in volatile && volatile[e.id] == e)
  }

  lemma {:induction false} UniqueIsFound(entries: seq<Entry>, e: Entry)
    requires UniqueIds(entries) && e in entries
    ensures Find(entries, e.id) == Some(e)
  {
    if entries[0].id != e.id {
      UniqueIsFound(entries[1..], e);
    } else {
      var i :| 0 <= i < |entries| && entries[i] == e;
    }
  }

  // ---- compare and swap ----

  lemma {:induction false} FindWithout(entries: seq<Entry>, id: string, other: string)
    requires other != id
    ensures Find(Without(entries, id), other) == Find(entries, other)
  {
    if entries != [] {
      FindWithout(entries[1..], id, other);
    }
  }

  lemma {:induction false} FindAppended(entries: seq<Entry>, e: Entry, id: string)
    ensures Find(entries + [e], id) ==
            if Find(entries, id).Some? then Find(entries, id) else if e.id == id then Some(e) else None
  {
    if entries != [] {
      assert (entries + [e])[1..] == entries[1..] + [e];
      FindAppended(entries[1..], e, id);
    }
  }

  lemma {:induction false} UniqueWithout(entries: seq<Entry>, id: string)
    requires UniqueIds(entries)
    ensures UniqueIds(Without(entries, id))
  {
    if entries != [] {
      UniqueWithout(entries[1..], id);
      var rest := Without(entries[1..], id);
      forall e <- rest ensures e.id != entries[0].id {
        var j :| 0 <= j < |entries[1..]| && entries[1..][j] == e;
        assert entries[j + 1] == e;
      }
    }
  }

  /** Replacing an entry changes that operation alone and keeps ids unique. */
  lemma ReplacedIsOneChange(entries: seq<Entry>, e: Entry, id: string)
    ensures Find(Replaced(entries, e), id) == if id == e.id then Some(e) else Find(entries, id)
    ensures UniqueIds(entries) ==> UniqueIds(Replaced(entries, e))
  {
    FindAppended(Without(entries, e.id), e, id);
    if id != e.id {
      FindWithout(entries, e.id, id);
    }
    if UniqueIds(entries) {
      UniqueWithout(entries, e.id);
    }
  }

  /** One durable write, by any tab: a save, or a retry of a volatile entry. */
  datatype Write = SaveOf(entry: Entry) | RetryOf(entry: Entry, base: nat)

  function Perform(entries: seq<Entry>, w: Write): Result<Written, JournalError> {
    match w case SaveOf(e) => DurableSave(entries, e) case RetryOf(e, base) => DurableRetry(entries, e, base)
  }

  /** A write replaces exactly revision r by r + 1, keeps every other operation, and keeps ids unique. */
  lemma WriteIsCompareAndSwap(entries: seq<Entry>, w: Write, id: string)
    requires Perform(entries, w).Success?
    ensures var r := Perform(entries, w).value;
            && r.stored.id == w.entry.id && r.stored.revision == RevisionIn(entries, w.entry.id) + 1
            && Find(r.entries, id) == (if id == w.entry.id then Some(r.stored) else Find(entries, id))
            && (UniqueIds(entries) ==> UniqueIds(r.entries))
  {
    ReplacedIsOneChange(entries, Perform(entries, w).value.stored, id);
  }

  /** The revision a write claims to build on. */
  function BuildsOn(w: Write): nat {
    match w case SaveOf(e) => e.revision case RetryOf(_, base) => base
  }

  /** A view that is not current can only add evidence to an entry of the same intent that has none. */
  lemma StaleViewErasesNoEvidence(entries: seq<Entry>, w: Write)
    requires Perform(entries, w).Success? && BuildsOn(w) != RevisionIn(entries, w.entry.id)
    ensures w.RetryOf? && HasEvidence(w.entry)
    ensures var current := Find(entries, w.entry.id);
            && current.Some? && !HasEvidence(current.value) && SameOperationIntent(current.value, w.entry)
    ensures Perform(entries, w).value.stored.evidence == w.entry.evidence
    ensures Perform(entries, w).value.stored.intent == w.entry.intent
  {
  }

  function PerformAll(entries: seq<Entry>, writes: seq<Write>): seq<Entry>
    decreases |writes|
  {
    if writes == [] then entries
    else
      var r := Perform(entries, writes[0]);
      PerformAll(if r.Success? then r.value.entries else entries, writes[1..])
  }

  lemma {:induction false} PerformAllAppend(entries: seq<Entry>, first: seq<Write>, second: seq<Write>)
    decreases |first|
    ensures PerformAll(entries, first + second) == PerformAll(PerformAll(entries, first), second)
  {
    if first == [] {
      assert first + second == second;
    } else {
      var r := Perform(entries, first[0]);
      assert (first + second)[1..] == first[1..] + second;
      PerformAllAppend(if r.Success? then r.value.entries else entries, first[1..], second);
    }
  }

  /** How many of the writes to an operation were accepted. */
  function Accepted(entries: seq<Entry>, writes: seq<Write>, id: string): nat
    decreases |writes|
  {
    if writes == [] then 0
    else
      var r := Perform(entries, writes[0]);
      (if r.Success? && writes[0].entry.id == id then 1 else 0)
      + Accepted(if r.Success? then r.value.entries else entries, writes[1..], id)
  }

  /** Over any run of writes by any tabs, an operation's revision counts its accepted writes: no write is lost. */
  lemma {:induction false} RevisionCountsWrites(entries: seq<Entry>, writes: seq<Write>, id: string)
    requires UniqueIds(entries)
    decreases |writes|
    ensures UniqueIds(PerformAll(entries, writes))
    ensures RevisionIn(PerformAll(entries, writes), id) == RevisionIn(entries, id) + Accepted(entries, writes, id)
    ensures Find(entries, id).Some? ==> Find(PerformAll(entries, writes), id).Some?
  {
    if writes != [] {
      var r := Perform(entries, writes[0]);
      if r.Success? {
        WriteIsCompareAndSwap(entries, writes[0], id);
        RevisionCountsWrites(r.value.entries, writes[1..], id);
      } else {
        RevisionCountsWrites(entries, writes[1..], id);
      }
    }
  }

  /** An operation nobody wrote to is as it was. */
  lemma {:induction false} UnwrittenIsUnchanged(entries: seq<Entry>, writes: seq<Write>, id: string)
    requires Accepted(entries, writes, id) == 0
    decreases |writes|
    ensures Find(PerformAll(entries, writes), id) == Find(entries, id)
  {
    if writes != [] {
      var r := Perform(entries, writes[0]);
      if r.Success? {
        WriteIsCompareAndSwap(entries, writes[0], id);
        UnwrittenIsUnchanged(r.value.entries, writes[1..], id);
      } else {
        UnwrittenIsUnchanged(entries, writes[1..], id);
      }
    }
  }

  /** Of two writers that built on the same revision, only the first succeeds, unless the second is a retry that
      adds evidence to an entry without any. */
  lemma OneWriterPerRevision(entries: seq<Entry>, first: Write, second: Write)
    requires first.entry.id == second.entry.id && BuildsOn(first) == BuildsOn(second)
    requires Perform(entries, first).Success? && BuildsOn(first) == RevisionIn(entries, first.entry.id)
    requires Perform(Perform(entries, first).value.entries, second).Success?
    ensures second.RetryOf? && !HasEvidence(Perform(entries, first).value.stored) && HasEvidence(second.entry)
  {
    WriteIsCompareAndSwap(entries, first, first.entry.id);
    StaleViewErasesNoEvidence(Perform(entries, first).value.entries, second);
  }
}
