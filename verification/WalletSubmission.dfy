/** submitOperation: what identifies an attempt at an operation, and how its outcome is recorded. */
module WalletSubmission {
  import opened Wrappers
  import opened Domain
  import opened Decimal
  import opened TransactionJournal
  import opened LocalStorageJournal

  datatype Context = Context(deploymentId: string, chainId: nat, account: string, protocolVersion: string)

  datatype Action = Action(name: string, saleId: Option<nat>, tokenId: Option<nat>, value: nat, contract: string, calldata: string)

  function IdText(id: Option<nat>): Option<string> {
    if id.Some? then Some(Text(id.value)) else None
  }

  /** The intent an entry records for a context and an action. */
  function IntentOf(c: Context, a: Action): Intent {
    Intent(c.deploymentId, c.chainId, c.account, c.protocolVersion, a.name, IdText(a.saleId), IdText(a.tokenId),
           a.contract, a.calldata, Text(a.value))
  }

  predicate SameImmutableIntent(i: Intent, c: Context, a: Action) {
    && Lower(i.deploymentId) == Lower(c.deploymentId) && i.chainId == c.chainId && Lower(i.account) == Lower(c.account)
    && i.protocolVersion == c.protocolVersion && i.action == a.name
    && i.saleId == IdText(a.saleId) && i.tokenId == IdText(a.tokenId)
    && Lower(i.contract) == Lower(a.contract) && Lower(i.calldata) == Lower(a.calldata) && i.valueWei == Text(a.value)
  }

  /** The statuses in which an earlier attempt may still act, or has acted. */
  predicate OwnsIntent(status: TxStatus) {
    || status.Preparing? || status.AwaitingWallet? || status.Submitted? || status.Unknown?
    || status.IncludedSuccess? || status.Orphaned?
  }

  datatype Json = JsonString(text: string) | JsonNumber(number: nat) | JsonNull

  function JsonId(id: Option<nat>): Json {
    if id.Some? then JsonString(Text(id.value)) else JsonNull
  }

  /** submissionIntentKey: the array whose JSON text names the submission lock. */
  function IntentKey(c: Context, a: Action): seq<Json> {
    [JsonString(Lower(c.deploymentId)), JsonNumber(c.chainId), JsonString(Lower(c.account)), JsonString(c.protocolVersion),
     JsonString(a.name), JsonId(a.saleId), JsonId(a.tokenId), JsonString(Lower(a.contract)), JsonString(Lower(a.calldata)),
     JsonString(Text(a.value))]
  }

  lemma JsonIdIsText(a: Option<nat>, b: Option<nat>)
    ensures JsonId(a) == JsonId(b) <==> IdText(a) == IdText(b)
  {
  }

  /** The lock and the check for unresolved attempts mean the same operations: an attempt's recorded intent matches
      another attempt's exactly when both contend for one lock. */
  lemma LockMatchesCheck(c: Context, a: Action, c': Context, a': Action)
    ensures SameImmutableIntent(IntentOf(c, a), c', a') <==> IntentKey(c, a) == IntentKey(c', a')
  {
    JsonIdIsText(a.saleId, a'.saleId);
    JsonIdIsText(a.tokenId, a'.tokenId);
    var k, k' := IntentKey(c, a), IntentKey(c', a');
    assert k == k' <==> k[0] == k'[0] && k[1] == k'[1] && k[2] == k'[2] && k[3] == k'[3] && k[4] == k'[4]
                        && k[5] == k'[5] && k[6] == k'[6] && k[7] == k'[7] && k[8] == k'[8] && k[9] == k'[9];
  }

  // ---- outcomes ----

  predicate SameSubmissionIntent(a: Entry, b: Entry) {
    a.id == b.id && a.intent == b.intent
  }

  predicate SameWalletRequest(a: Entry, b: Entry) {
    SameSubmissionIntent(a, b) && a.walletRequestStartedAt.Some? && a.walletRequestStartedAt == b.walletRequestStartedAt
  }

  /** mergeWalletOutcome: an entry that already has evidence keeps its status. */
  function MergeWalletOutcome(current: Entry, outcome: WalletOutcome): (merged: Entry)
    ensures SameSubmissionIntent(current, merged) && merged.revision == current.revision && merged.evidence == current.evidence
    ensures merged.outcome == Some(outcome) && (HasEvidence(current) ==> merged.status == current.status)
    ensures !current.status.Idle? ==> !merged.status.Idle?
  {
    var recorded := current.(outcome := Some(outcome));
    if HasEvidence(current) then recorded
    else
      match outcome
      case OutcomeRejected => recorded.(status := Rejected, lastError := Some("WALLET_REJECTED"))
      case OutcomeUnknown => recorded.(status := Unknown, lastError := Some("SUBMISSION_UNKNOWN"))
  }

  function HashOf(e: Entry): Option<Hash> {
    Over(e.evidence.originalTxHash, e.evidence.currentTxHash)
  }

  predicate SameHash(a: Option<Hash>, b: Option<Hash>) {
    a.Some? && b.Some? && Lower(a.value) == Lower(b.value)
  }

  /** The operation's entry in this tab's view: volatile, or else durable. */
  ghost predicate Shows(journal: Journal, e: Entry)
    reads journal, journal.storage`entries
  {
    ShownOf(journal.Contents(), e.id) == Some(e)
  }

  lemma SavedIsShown(at: seq<Entry>, e: Entry)
    requires DurableSave(at, e).Success?
    ensures DurableSave(at, e).value.stored == e.(revision := e.revision + 1)
    ensures Find(DurableSave(at, e).value.entries, e.id) == Some(DurableSave(at, e).value.stored)
  {
    ReplacedIsOneChange(at, DurableSave(at, e).value.stored, e.id);
  }

  /** The entry is a saved version of its operation, like every version this tab shows. */
  ghost predicate InOrder(journal: Journal, e: Entry)
    reads journal, journal.storage`entries
  {
    journal.Regular(e.id, e.intent) && Fits(e, e.id, e.intent)
  }

  lemma ShownIsInOrder(journal: Journal, e: Entry, shown: Option<Entry>)
    requires shown.Some? ==> shown.value.id == e.id && InView(journal.storage.entries, journal.volatileEntries, shown.value)
    ensures journal.Regular(e.id, e.intent) && shown.Some? ==> InOrder(journal, shown.value) && shown.value.intent == e.intent
  {
    if journal.Regular(e.id, e.intent) && shown.Some? {
      journal.ShownFits(shown.value, e.id, e.intent);
    }
  }

  /** While something is awaited other tabs write. */
  method AwaitOthers(journal: Journal)
    requires journal.Valid()
    modifies journal.storage
    ensures journal.Valid() && journal.calls == old(journal.calls) && Waited(journal.storage, old(journal.Contents()), journal.Contents())
    ensures forall id, intent :: old(journal.Regular(id, intent)) ==> journal.Regular(id, intent)
    ensures old(journal.storage.Working()) ==> journal.storage.Working()
    ensures old(journal.storage.Alone()) ==> journal.storage.Alone() && journal.storage.entries == old(journal.storage.entries)
  {
    hide AllFit, LocalStorage.OthersKeep, LocalStorage.OthersOn, PerformAll, Fits;
    ghost var start := journal.storage.entries;
    ghost var others := journal.storage.OthersWrite();
    forall id, intent | old(journal.Regular(id, intent)) ensures journal.Regular(id, intent) {
      journal.StaysRegular(start, id, intent);
    }
  }

  // ---- the returned hash ----

  /** The version shown has no hash other than this one. */
  predicate TakesHash(v: Local, submitted: Entry) {
    var shown := ShownOf(v, submitted.id);
    shown.Some? && HashOf(shown.value).Some? ==> SameHash(HashOf(shown.value), HashOf(submitted))
  }

  /** The version the submission was made from was saved, and is not one with another hash. */
  predicate MadeFrom(v: Local, submitted: Entry) {
    submitted.revision <= RevisionShown(v, submitted.id) && (Writable(v, submitted) ==> TakesHash(v, submitted))
  }

  /** The version shown is of the same operation and may take the hash. */
  predicate Receives(v: Local, submitted: Entry) {
    ShownOf(v, submitted.id).Some? && SameSubmissionIntent(ShownOf(v, submitted.id).value, submitted) && TakesHash(v, submitted)
  }

  function WithHash(current: Entry, submitted: Entry): (next: Entry)
    ensures next.id == current.id && next.intent == current.intent && next.revision == current.revision && next.status.Submitted?
  {
    current.(evidence := current.evidence.(originalTxHash := submitted.evidence.originalTxHash,
                                           currentTxHash := submitted.evidence.currentTxHash,
                                           association := submitted.evidence.association),
             evidenceSource := submitted.evidenceSource, status := Submitted, availability := None,
             verificationRequestId := None, lastError := None)
  }

  /** The submission itself, or its hash on top of a version of the operation that has none. */
  ghost predicate IsSubmission(e: Entry, submitted: Entry) {
    e == submitted
    || exists current :: SameSubmissionIntent(current, submitted) && HashOf(current).None? && e == WithHash(current, submitted)
  }

  /** The later writes are of the submission. */
  ghost predicate AreSubmissions(earlier: seq<Call>, later: seq<Call>, submitted: Entry) {
    earlier <= later && forall i :: |earlier| <= i < |later| ==> IsSubmission(later[i].entry, submitted)
  }

  /** None of the later writes replaces a version that has another hash. */
  predicate KeepHashes(earlier: seq<Call>, later: seq<Call>) {
    earlier <= later
    && forall i :: |earlier| <= i < |later| && later[i].succeeds ==> TakesHash(later[i].before, later[i].entry)
  }

  lemma SaveKeepsHash(storage: LocalStorage, start: Local, at: seq<Entry>, e: Entry)
    requires UniqueIds(start.durable) && storage.OthersOn(start.durable, at)
    ensures MadeFrom(start, e) && Writable(start.(durable := at), e) ==> TakesHash(start.(durable := at), e)
  {
    hide UniqueIds, Find, LocalStorage.OthersOn, HashOf, SameHash;
    storage.SameRevisionIsSame(start.durable, at, e.id);
  }

  lemma AreSubmissionsOn(a: seq<Call>, b: seq<Call>, c: seq<Call>, submitted: Entry)
    requires AreSubmissions(a, b, submitted) && AreSubmissions(b, c, submitted)
    ensures AreSubmissions(a, c, submitted)
  {
    hide IsSubmission;
    forall i | |a| <= i < |c| ensures IsSubmission(c[i].entry, submitted) {
      if i < |b| {
        assert c[i] == b[i];
      }
    }
  }

  lemma KeepHashesOn(a: seq<Call>, b: seq<Call>, c: seq<Call>)
    requires KeepHashes(a, b) && KeepHashes(b, c)
    ensures KeepHashes(a, c)
  {
    hide TakesHash;
    forall i | |a| <= i < |c| && c[i].succeeds ensures TakesHash(c[i].before, c[i].entry) {
      if i < |b| {
        assert c[i] == b[i];
      }
    }
  }

  /** A save, of which the tab shows what it stored. */
  method SaveAndShow(journal: Journal, e: Entry) returns (r: Result<Entry, JournalError>, ghost c: Call)
    requires journal.Valid()
    modifies journal, journal.storage
    ensures journal.Valid() && Went(journal.storage, old(journal.Now()), journal.Now()) && journal.calls == old(journal.calls) + [c]
    ensures c.kind.SaveCall? && c.entry == e && c.succeeds == r.Success? && Waited(journal.storage, old(journal.Contents()), c.before)
    ensures c.succeeds ==> Writable(c.before, e)
    ensures r.Success? ==> r.value == e.(revision := e.revision + 1) && Shows(journal, r.value)
    ensures r.Failure? || e.id !in old(journal.volatileEntries) ==> journal.volatileEntries == old(journal.volatileEntries)
    ensures r.Failure? && r.error.StorageUnavailable? ==> e.id in journal.writeIssues
    ensures old(journal.storage.Working()) && r.Failure? ==> r.error.RevisionConflict?
    ensures forall id, intent :: old(journal.Regular(id, intent)) && Keeps(SaveOf(e), id, intent) ==> journal.Regular(id, intent)
    ensures old(journal.storage.Working()) && old(journal.storage.Alone()) ==>
              && journal.storage.Working() && journal.storage.Alone()
              && (r.Success? <==> Writable(old(journal.Contents()), e)) && journal.writeIssues <= old(journal.writeIssues)
              && (r.Failure? ==> r.error.RevisionConflict? && journal.Contents() == old(journal.Contents()))
  {
    hide Journal.Regular, Keeps, Went, PerformAll, DurableSave, Find, RevisionIn, LocalStorage.OthersOn, LocalStorage.Working,
         LocalStorage.Alone;
    ghost var at;
    r, at := journal.Save(e);
    c := journal.calls[|old(journal.calls)|];
    journal.storage.NobodyOn(at);
    CanSave(at, e);
    if r.Success? && e.id !in journal.volatileEntries {
      SavedIsShown(at, e);
    }
  }

  lemma CanSave(at: seq<Entry>, e: Entry)
    ensures DurableSave(at, e).Success? <==> e.revision == match Find(at, e.id) case None => 0 case Some(found) => found.revision
  {
  }

  /** A save of one entry of the returned hash. */
  method SaveSubmission(journal: Journal, e: Entry, ghost submitted: Entry) returns (r: Result<Entry, JournalError>)
    requires journal.Valid() && IsSubmission(e, submitted)
    modifies journal, journal.storage
    ensures journal.Valid() && Went(journal.storage, old(journal.Now()), journal.Now())
    ensures r.Success? ==> r.value == e.(revision := e.revision + 1) && Shows(journal, r.value)
    ensures AreSubmissions(old(journal.calls), journal.calls, submitted)
    ensures UniqueIds(old(journal.storage.entries)) && MadeFrom(old(journal.Contents()), e) ==> KeepHashes(old(journal.calls), journal.calls)
    ensures old(InOrder(journal, e)) ==>
              journal.Regular(e.id, e.intent) && CallsFit(old(journal.calls), journal.calls, e.id, e.intent)
    ensures old(journal.storage.Working()) && old(journal.storage.Alone()) ==>
              && journal.storage.Working() && journal.storage.Alone()
              && (r.Success? <==> Writable(old(journal.Contents()), e))
              && (r.Failure? ==> r.error.RevisionConflict? && journal.Contents() == old(journal.Contents()))
  {
    hide Journal.Regular, Went, PerformAll, UniqueIds, Find, TakesHash, MadeFrom, IsSubmission, LocalStorage.OthersOn,
         LocalStorage.Working, LocalStorage.Alone, Writable, Shows;
    ghost var c;
    r, c := SaveAndShow(journal, e);
    if UniqueIds(old(journal.storage.entries)) {
      SaveKeepsHash(journal.storage, old(journal.Contents()), c.before.durable, e);
      assert c.before == old(journal.Contents()).(durable := c.before.durable);
    }
  }

  /** After a conflict: the hash on top of the version another writer made, if that one has none. */
  method AddHash(journal: Journal, submitted: Entry) returns (r: Result<Entry, JournalError>)
    requires journal.Valid() && HashOf(submitted).Some?
    modifies journal, journal.storage
    ensures journal.Valid() && Went(journal.storage, old(journal.Now()), journal.Now())
    ensures r.Success? ==> SameSubmissionIntent(r.value, submitted) && SameHash(HashOf(r.value), HashOf(submitted))
    ensures r.Success? ==> Shows(journal, r.value) || InView(journal.storage.entries, journal.volatileEntries, r.value)
    ensures AreSubmissions(old(journal.calls), journal.calls, submitted)
    ensures UniqueIds(old(journal.storage.entries)) ==> KeepHashes(old(journal.calls), journal.calls)
    ensures old(journal.storage.Working()) && old(journal.storage.Alone()) && UniqueIds(old(journal.storage.entries)) ==>
              (r.Success? <==> Receives(old(journal.Contents()), submitted))
    ensures old(journal.Regular(submitted.id, submitted.intent)) ==>
              && journal.Regular(submitted.id, submitted.intent)
              && CallsFit(old(journal.calls), journal.calls, submitted.id, submitted.intent)
              && (r.Success? ==> Fits(r.value, submitted.id, submitted.intent))
  {
    hide Journal.Regular, Went, PerformAll, UniqueIds, Find, LocalStorage.Working, LocalStorage.Alone, Shows;
    WentNowhere(journal.storage, journal.Now());
    var current, _ := journal.Current(submitted.id);
    if UniqueIds(journal.storage.entries) && current.Some? {
      ShownIsInView(journal.Contents(), current.value);
    }
    if current.None? || !SameSubmissionIntent(current.value, submitted) {
      return Failure(RevisionConflict);
    }
    ShownIsInOrder(journal, submitted, current);
    if HashOf(current.value).Some? {
      return if SameHash(HashOf(current.value), HashOf(submitted)) then Success(current.value) else Failure(RevisionConflict);
    }
    r := SaveSubmission(journal, WithHash(current.value, submitted), submitted);
  }

  /** persistReturnedHash: records the wallet's hash, on top of another writer's version if that one has no hash.
      A different hash that is already recorded is never replaced. */
  method PersistReturnedHash(journal: Journal, submitted: Entry) returns (r: Result<Entry, JournalError>)
    requires journal.Valid() && HashOf(submitted).Some?
    modifies journal, journal.storage
    ensures journal.Valid() && Went(journal.storage, old(journal.Now()), journal.Now())
    ensures r.Success? ==> SameSubmissionIntent(r.value, submitted) && SameHash(HashOf(r.value), HashOf(submitted))
    ensures r.Success? ==> Shows(journal, r.value) || InView(journal.storage.entries, journal.volatileEntries, r.value)
    ensures AreSubmissions(old(journal.calls), journal.calls, submitted)
    ensures UniqueIds(old(journal.storage.entries)) && MadeFrom(old(journal.Contents()), submitted) ==>
              KeepHashes(old(journal.calls), journal.calls)
    ensures old(journal.storage.Working()) && old(journal.storage.Alone()) && UniqueIds(old(journal.storage.entries)) ==>
              (r.Success? <==> Writable(old(journal.Contents()), submitted) || Receives(old(journal.Contents()), submitted))
    ensures old(InOrder(journal, submitted)) ==>
              && journal.Regular(submitted.id, submitted.intent)
              && CallsFit(old(journal.calls), journal.calls, submitted.id, submitted.intent)
              && (r.Success? ==> Fits(r.value, submitted.id, submitted.intent))
  {
    hide Journal.Regular, Went, PerformAll, UniqueIds, Find, LocalStorage.Working, LocalStorage.Alone, Shows, InView, MadeFrom,
         AreSubmissions, KeepHashes, CallsFit, Receives, Writable;
    r := SaveSubmission(journal, submitted, submitted);
    if r.Success? || !r.error.RevisionConflict? {
      return;
    }
    ghost var failed := journal.Now();
    UniqueGoesOn(journal.storage, old(journal.Now()), failed);
    r := AddHash(journal, submitted);
    WentOn(journal.storage, old(journal.Now()), failed, journal.Now());
    AreSubmissionsOn(old(journal.calls), failed.calls, journal.calls, submitted);
    if UniqueIds(old(journal.storage.entries)) && MadeFrom(old(journal.Contents()), submitted) {
      KeepHashesOn(old(journal.calls), failed.calls, journal.calls);
    }
    if old(InOrder(journal, submitted)) {
      CallsFitOn(old(journal.calls), failed.calls, journal.calls, submitted.id, submitted.intent);
    }
  }

  // ---- the wallet's outcome ----

  /** What an outcome is merged into: the awaiting entry itself, or a newer version of the same wallet request. */
  predicate OutcomeBase(base: Entry, awaiting: Entry) {
    base == awaiting || SameWalletRequest(base, awaiting)
  }

  /** The view shows the outcome, merged into a version of this wallet request, with that version's evidence. */
  ghost predicate OutcomeShown(journal: Journal, awaiting: Entry, outcome: WalletOutcome)
    reads journal, journal.storage`entries
  {
    exists base :: OutcomeBase(base, awaiting) && Shows(journal, MergeWalletOutcome(base, outcome).(revision := base.revision + 1))
  }

  /** The outcome, merged into a version of this wallet request. */
  ghost predicate IsOutcome(e: Entry, awaiting: Entry, outcome: WalletOutcome) {
    exists base :: OutcomeBase(base, awaiting) && e == MergeWalletOutcome(base, outcome)
  }

  /** The later writes are all of the outcome. */
  ghost predicate AreOutcomes(earlier: seq<Call>, later: seq<Call>, awaiting: Entry, outcome: WalletOutcome) {
    earlier <= later && forall i :: |earlier| <= i < |later| ==> IsOutcome(later[i].entry, awaiting, outcome)
  }

  lemma AreOutcomesOn(a: seq<Call>, b: seq<Call>, c: seq<Call>, awaiting: Entry, outcome: WalletOutcome)
    requires AreOutcomes(a, b, awaiting, outcome) && AreOutcomes(b, c, awaiting, outcome)
    ensures AreOutcomes(a, c, awaiting, outcome)
  {
    hide IsOutcome;
    forall i | |a| <= i < |c| ensures IsOutcome(c[i].entry, awaiting, outcome) {
      if i < |b| {
        assert c[i] == b[i];
      }
    }
  }

  /** Keeps the outcome in the overlay, merged into a version of the wallet request. */
  method KeepOutcome(journal: Journal, version: Entry, ghost base: Entry, awaiting: Entry, outcome: WalletOutcome)
    requires journal.Valid()
    requires OutcomeBase(base, awaiting) && MergeWalletOutcome(version, outcome) == MergeWalletOutcome(base, outcome)
    modifies journal
    ensures journal.Valid() && OutcomeShown(journal, awaiting, outcome)
    ensures Went(journal.storage, old(journal.Now()), journal.Now())
    ensures AreOutcomes(old(journal.calls), journal.calls, awaiting, outcome)
    ensures old(InOrder(journal, version)) ==>
              && journal.Regular(version.id, version.intent)
              && CallsFit(old(journal.calls), journal.calls, version.id, version.intent)
  {
    hide MergeWalletOutcome, OutcomeBase, Journal.Regular, Went;
    var stored := journal.SaveVolatile(MergeWalletOutcome(version, outcome));
    assert Shows(journal, MergeWalletOutcome(base, outcome).(revision := base.revision + 1));
  }

  /** Saves a version with the outcome merged in. */
  method SaveOutcome(journal: Journal, awaiting: Entry, candidate: Entry, outcome: WalletOutcome, ghost base: Entry)
    returns (saved: Result<Entry, JournalError>)
    requires journal.Valid() && OutcomeBase(base, awaiting) && candidate == MergeWalletOutcome(base, outcome)
    modifies journal, journal.storage
    ensures journal.Valid() && Went(journal.storage, old(journal.Now()), journal.Now())
    ensures saved.Success? ==> OutcomeShown(journal, awaiting, outcome)
    ensures saved.Failure? ==> journal.volatileEntries == old(journal.volatileEntries)
    ensures AreOutcomes(old(journal.calls), journal.calls, awaiting, outcome)
    ensures old(InOrder(journal, base)) ==>
              InOrder(journal, base) && CallsFit(old(journal.calls), journal.calls, base.id, base.intent)
    ensures old(journal.storage.Working()) && old(journal.storage.Alone()) && Writable(old(journal.Contents()), base) ==> saved.Success?
  {
    hide MergeWalletOutcome, Journal.Regular, Went, Waited, UniqueIds, LocalStorage.Working, LocalStorage.Alone, Shows;
    ghost var c;
    saved, c := SaveAndShow(journal, candidate);
    if saved.Success? {
      assert Shows(journal, MergeWalletOutcome(base, outcome).(revision := base.revision + 1));
    }
  }

  /** How one try to save an outcome ends: for good, or with another writer's version to merge it into. */
  datatype Tried = Stopped(durable: bool) | Again(current: Entry)

  /** One try of persistWalletOutcome. */
  method TryOutcome(journal: Journal, awaiting: Entry, candidate: Entry, outcome: WalletOutcome, ghost base: Entry) returns (r: Tried)
    requires journal.Valid() && OutcomeBase(base, awaiting) && candidate == MergeWalletOutcome(base, outcome)
    modifies journal, journal.storage
    ensures journal.Valid() && Went(journal.storage, old(journal.Now()), journal.Now())
    ensures r.Stopped? ==>
              OutcomeShown(journal, awaiting, outcome) || (!r.durable && journal.volatileEntries == old(journal.volatileEntries))
    ensures r.Again? ==> SameWalletRequest(r.current, awaiting) && journal.volatileEntries == old(journal.volatileEntries)
    ensures AreOutcomes(old(journal.calls), journal.calls, awaiting, outcome)
    ensures old(InOrder(journal, base)) ==>
              && journal.Regular(base.id, base.intent)
              && CallsFit(old(journal.calls), journal.calls, base.id, base.intent)
              && (r.Again? ==> Fits(r.current, base.id, base.intent))
    ensures old(journal.storage.Working()) && old(journal.storage.Alone()) && Writable(old(journal.Contents()), base) ==> r == Stopped(true)
  {
    hide InView, MergeWalletOutcome, OutcomeShown, Journal.Regular, Went, AreOutcomes;
    var saved := SaveOutcome(journal, awaiting, candidate, outcome, base);
    ghost var calls, failed := journal.calls, journal.Now();
    if saved.Success? {
      return Stopped(true);
    }
    var current, _ := journal.Current(awaiting.id);
    ShownIsInOrder(journal, base, current);
    if !saved.error.RevisionConflict? {
      var version := if current.Some? && SameWalletRequest(current.value, awaiting) then current.value else candidate;
      RemergeIsMerge(base, outcome);
      KeepOutcome(journal, version, if version == candidate then base else version, awaiting, outcome);
      AreOutcomesOn(old(journal.calls), calls, journal.calls, awaiting, outcome);
      WentOn(journal.storage, old(journal.Now()), failed, journal.Now());
      return Stopped(false);
    }
    if current.None? || !SameWalletRequest(current.value, awaiting) {
      return Stopped(false);
    }
    return Again(current.value);
  }

  /** persistWalletOutcome: three tries by compare-and-swap, then the overlay. Evidence another writer recorded is
      never taken away. */
  method PersistWalletOutcome(journal: Journal, awaiting: Entry, outcome: WalletOutcome) returns (durable: bool)
    requires journal.Valid()
    modifies journal, journal.storage
    ensures journal.Valid() && Went(journal.storage, old(journal.Now()), journal.Now())
    ensures durable ==> OutcomeShown(journal, awaiting, outcome)
    ensures !durable ==> OutcomeShown(journal, awaiting, outcome) || journal.volatileEntries == old(journal.volatileEntries)
    ensures AreOutcomes(old(journal.calls), journal.calls, awaiting, outcome)
    ensures old(InOrder(journal, awaiting)) ==>
              && journal.Regular(awaiting.id, awaiting.intent)
              && CallsFit(old(journal.calls), journal.calls, awaiting.id, awaiting.intent)
    ensures old(journal.storage.Working()) && old(journal.storage.Alone()) && Writable(old(journal.Contents()), awaiting) ==> durable
  {
    hide InView, MergeWalletOutcome, OutcomeShown, Journal.Regular, Went, Fits, IsOutcome, LocalStorage.Working, LocalStorage.Alone,
         Writable;
    ghost var ordered, base := InOrder(journal, awaiting), awaiting;
    ghost var undisturbed := journal.storage.Working() && journal.storage.Alone() && Writable(journal.Contents(), awaiting);
    WentNowhere(journal.storage, journal.Now());
    var candidate := MergeWalletOutcome(awaiting, outcome);
    for attempt := 0 to 3
      invariant journal.Valid() && journal.volatileEntries == old(journal.volatileEntries)
      invariant Went(journal.storage, old(journal.Now()), journal.Now())
      invariant OutcomeBase(base, awaiting) && candidate == MergeWalletOutcome(base, outcome)
      invariant AreOutcomes(old(journal.calls), journal.calls, awaiting, outcome)
      invariant ordered ==> InOrder(journal, base) && CallsFit(old(journal.calls), journal.calls, awaiting.id, awaiting.intent)
      invariant undisturbed ==>
                  attempt == 0 && journal.storage.Working() && journal.storage.Alone() && Writable(journal.Contents(), base)
    {
      ghost var before := journal.Now();
      var tried := TryOutcome(journal, awaiting, candidate, outcome, base);
      WentOn(journal.storage, old(journal.Now()), before, journal.Now());
      AreOutcomesOn(old(journal.calls), before.calls, journal.calls, awaiting, outcome);
      if ordered {
        CallsFitOn(old(journal.calls), before.calls, journal.calls, awaiting.id, awaiting.intent);
      }
      if tried.Stopped? {
        return tried.durable;
      }
      base := tried.current;
      candidate := MergeWalletOutcome(tried.current, outcome);
    }
    var current, _ := journal.Current(awaiting.id);
    ShownIsInOrder(journal, awaiting, current);
    if current.Some? && SameWalletRequest(current.value, awaiting) {
      ghost var before := journal.Now();
      KeepOutcome(journal, current.value, current.value, awaiting, outcome);
      WentOn(journal.storage, old(journal.Now()), before, journal.Now());
      AreOutcomesOn(old(journal.calls), before.calls, journal.calls, awaiting, outcome);
      if ordered {
        CallsFitOn(old(journal.calls), before.calls, journal.calls, awaiting.id, awaiting.intent);
      }
    }
    return false;
  }

  lemma RemergeIsMerge(e: Entry, outcome: WalletOutcome)
    ensures MergeWalletOutcome(MergeWalletOutcome(e, outcome), outcome) == MergeWalletOutcome(e, outcome)
  {
  }

  /** The entry an attempt starts from. */
  function NewEntry(id: string, intent: Intent): Entry {
    Entry(id, 0, intent, Preparing, None, NO_EVIDENCE, None, None, None, None, None, None, None, None, None, None, None, None)
  }
}
