/** submitOperation: one attempt at an operation, from the check for unresolved attempts to the wallet's outcome. Up
    to the wallet request the attempt takes steps of the submission protocol, whatever other tabs do in between. */
module SubmissionAttempt {
  import opened Wrappers
  import opened Domain
  import opened TransactionJournal
  import opened LocalStorageJournal
  import opened WalletSubmission
  import opened SubmissionProtocol

  // ---- one tab's journal inside the protocol ----

  ghost predicate InTab(s: State, tab: nat, v: Local) {
    && s.durable == v.durable && Overlay(s, tab) == v.overlay
    && (if tab in s.bases then s.bases[tab] else map[]) == v.bases
  }

  /** What a write of the journal is in the protocol. */
  function Effect(s: State, tab: nat, c: Call): State {
    match c.kind
    case SaveCall => SaveIn(s, tab, c.entry, c.succeeds)
    case RetryCall => RetryIn(s, tab, c.entry, c.succeeds)
    case VolatileCall => SaveVolatileIn(s, tab, c.entry)
  }

  function StepOf(c: Call, tab: nat): Step {
    match c.kind
    case SaveCall => SaveBy(tab, c.entry, c.succeeds)
    case RetryCall => RetryBy(tab, c.entry, c.succeeds)
    case VolatileCall => SaveVolatileBy(tab, c.entry)
  }

  lemma OverlayWritten(s: State, tab: nat, e: Entry)
    ensures var t := WithOverlay(s, tab, e);
            && t.durable == s.durable && t.bases == s.bases && t.attempts == s.attempts
            && Overlay(t, tab) == Overlay(s, tab)[e.id := e]
  {
  }

  lemma DurableWritten(s: State, w: Written)
    ensures var t := WithDurable(s, w);
            t.durable == w.entries && t.overlays == s.overlays && t.bases == s.bases && t.attempts == s.attempts
  {
  }

  lemma SaveEffect(s: State, tab: nat, c: Call)
    requires c.kind.SaveCall? && Happened(c) && InTab(s, tab, c.before)
    ensures InTab(Effect(s, tab, c), tab, c.after) && Effect(s, tab, c).attempts == s.attempts
    ensures (SaveSucceeds(s, tab, c.entry, c.succeeds) <==> c.succeeds) && (!c.succeeds ==> Effect(s, tab, c) == s)
  {
    hide DurableSave, WithOverlay, WithDurable;
    OverlayWritten(s, tab, c.entry.(revision := c.entry.revision + 1));
    if DurableSave(s.durable, c.entry).Success? {
      DurableWritten(s, DurableSave(s.durable, c.entry).value);
    }
  }

  lemma RetryEffect(s: State, tab: nat, c: Call)
    requires c.kind.RetryCall? && Happened(c) && InTab(s, tab, c.before)
    ensures InTab(Effect(s, tab, c), tab, c.after) && Effect(s, tab, c).attempts == s.attempts
  {
    hide DurableRetry, SaveIn;
  }

  lemma VolatileEffect(s: State, tab: nat, c: Call)
    requires c.kind.VolatileCall? && Happened(c) && InTab(s, tab, c.before)
    ensures InTab(Effect(s, tab, c), tab, c.after) && Effect(s, tab, c).attempts == s.attempts
  {
  }

  /** In every state over the journal a write found, the protocol's write leaves the journal the write left. */
  lemma CallEffect(s: State, tab: nat, c: Call)
    requires Happened(c) && InTab(s, tab, c.before)
    ensures InTab(Effect(s, tab, c), tab, c.after) && Effect(s, tab, c).attempts == s.attempts
    ensures c.kind.SaveCall? ==>
              (SaveSucceeds(s, tab, c.entry, c.succeeds) <==> c.succeeds) && (!c.succeeds ==> Effect(s, tab, c) == s)
  {
    hide Happened, InTab, Effect, SaveSucceeds;
    match c.kind
    case SaveCall => SaveEffect(s, tab, c);
    case RetryCall => RetryEffect(s, tab, c);
    case VolatileCall => VolatileEffect(s, tab, c);
  }

  /** The write is an enabled step of the protocol with the protocol's effect, in every state that knows the operation. */
  ghost predicate IsWrite(c: Call, id: string, intent: Intent) {
    forall s: State, tab: nat | InTab(s, tab, c.before) && id in s.known && s.known[id] == intent ::
      Enabled(s, StepOf(c, tab)) && InTab(Next(s, StepOf(c, tab)), tab, c.after)
  }

  lemma CallIsWrite(c: Call, id: string, intent: Intent)
    requires Happened(c) && Fits(c.entry, id, intent)
    ensures IsWrite(c, id, intent)
  {
    hide SaveIn, RetryIn, SaveVolatileIn, Happened;
    forall s: State, tab: nat | InTab(s, tab, c.before) && id in s.known && s.known[id] == intent
      ensures Enabled(s, StepOf(c, tab)) && InTab(Next(s, StepOf(c, tab)), tab, c.after)
    {
      CallEffect(s, tab, c);
    }
  }

  /** In every state the protocol can reach, what a tab holds of a known operation is in order. */
  lemma ReachableIsInOrder(states: seq<State>, steps: seq<Step>, n: nat, tab: nat, v: Local, id: string)
    requires IsRun(states, steps) && n <= |steps| && InTab(states[n], tab, v) && id in states[n].known
    ensures LocalFits(v, id, states[n].known[id])
  {
    RunKeepsInv(states, steps, n);
    assert RecordsSane(states[n]);
    hide Inv;
    forall e <- v.durable ensures Sane(states[n], e) {
    }
  }

  /** The later writes are all such steps. */
  ghost predicate AreWrites(earlier: seq<Call>, later: seq<Call>, id: string, intent: Intent) {
    earlier <= later && forall i :: |earlier| <= i < |later| ==> IsWrite(later[i], id, intent)
  }

  lemma CallsAreWrites(storage: LocalStorage, a: Moment, b: Moment, id: string, intent: Intent)
    requires Went(storage, a, b) && CallsFit(a.calls, b.calls, id, intent)
    ensures AreWrites(a.calls, b.calls, id, intent)
  {
    hide IsWrite, Happened, Fits, Explains;
    var later := b.calls[|a.calls|..];
    ExplainedHappened(storage, a.held, later, b.held);
    forall i | |a.calls| <= i < |b.calls| ensures IsWrite(b.calls[i], id, intent) {
      assert b.calls[i] == later[i - |a.calls|];
      CallIsWrite(b.calls[i], id, intent);
    }
  }

  // ---- an attempt inside the protocol ----

  /** Which attempt it is. */
  datatype Self = Self(a: nat, tab: nat, opId: string, intent: Intent)

  /** One step of an attempt: the journal it found and left, and the phase it leads to, if the attempt goes on. */
  datatype Act = Act(step: Step, before: Local, after: Local, phase: Phase, next: Option<Phase>)

  ghost predicate Stands(s: State, self: Self, phase: Phase, v: Local) {
    && InTab(s, self.tab, v) && self.a in s.attempts
    && s.attempts[self.a] == Attempt(self.tab, self.opId, self.intent, phase)
  }

  /** In every protocol state with this attempt in this phase over this journal, the step is enabled and has this effect. */
  ghost predicate IsProtocolStep(act: Act, self: Self) {
    forall s: State | Stands(s, self, act.phase, act.before) ::
      && Enabled(s, act.step)
      && var t := Next(s, act.step);
         if act.next.Some? then Stands(t, self, act.next.value, act.after) else InTab(t, self.tab, act.after) && self.a !in t.attempts
  }

  /** A sequence of protocol steps; between two of them at most other tabs wrote the journal. */
  ghost predicate IsAttempt(storage: LocalStorage, acts: seq<Act>, self: Self) {
    && acts != [] && acts[0].phase.Checking?
    && (forall i :: 0 <= i < |acts| ==> IsProtocolStep(acts[i], self))
    && (forall i :: 0 < i < |acts| ==> Continues(storage, acts[i - 1], acts[i]))
  }

  ghost predicate Continues(storage: LocalStorage, a: Act, b: Act) {
    a.next == Some(b.phase) && Waited(storage, a.after, b.before)
  }

  lemma GoesOn(storage: LocalStorage, acts: seq<Act>, act: Act, self: Self)
    requires IsAttempt(storage, acts, self) && IsProtocolStep(act, self) && Continues(storage, acts[|acts| - 1], act)
    ensures IsAttempt(storage, acts + [act], self)
  {
    hide IsProtocolStep, Continues;
    var all := acts + [act];
    forall i | 0 < i < |all| ensures Continues(storage, all[i - 1], all[i]) {
      assert i < |acts| ==> Continues(storage, acts[i - 1], acts[i]);
    }
  }

  /** After its check the attempt's steps are exactly these writes. */
  ghost predicate AreActsOf(acts: seq<Act>, calls: seq<Call>) {
    && |acts| == |calls| + 1
    && forall i :: 0 <= i < |calls| ==> acts[i + 1].before == calls[i].before && acts[i + 1].after == calls[i].after
  }

  lemma ActsGrow(acts: seq<Act>, grown: seq<Act>, earlier: seq<Call>, calls: seq<Call>, c: Call)
    requires earlier <= calls && AreActsOf(acts, calls[|earlier|..])
    requires |grown| == |acts| + 1 && acts <= grown && grown[|acts|].before == c.before && grown[|acts|].after == c.after
    ensures AreActsOf(grown, (calls + [c])[|earlier|..])
  {
    var all := (calls + [c])[|earlier|..];
    assert all == calls[|earlier|..] + [c];
    forall i | 0 <= i < |all| ensures grown[i + 1].before == all[i].before && grown[i + 1].after == all[i].after {
      if i < |all| - 1 {
        assert grown[i + 1] == acts[i + 1];
      }
    }
  }

  /** Some entry this tab can see is an unresolved attempt at the same operation. */
  ghost predicate HasUnresolved(durable: seq<Entry>, volatile: map<string, Entry>, c: Context, a: Action) {
    exists e :: InView(durable, volatile, e) && SameImmutableIntent(e.intent, c, a) && OwnsIntent(e.status)
  }

  lemma CheckIsStep(self: Self, c: Context, a: Action, v: Local, readable: bool, unresolved: bool)
    requires self.intent == IntentOf(c, a)
    requires unresolved <==> HasUnresolved(if readable then v.durable else [], v.overlay, c, a)
    ensures IsProtocolStep(Act(Check(self.a, readable), v, v, Checking, if unresolved then None else Some(Cleared)), self)
  {
    hide SameImmutableIntent, IntentOf, Named, OwnsIntent;
    forall s: State | Stands(s, self, Checking, v)
      ensures SeesUnresolved(s, self.tab, self.intent, readable) <==> unresolved
    {
      forall e: Entry ensures SameImmutableIntent(e.intent, c, a) <==> Named(e.intent) == Named(self.intent) {
        NamedIsSameIntent(e.intent, c, a);
      }
    }
    hide SeesUnresolved, HasUnresolved;
  }

  lemma CreateIsStep(self: Self, succeeds: bool, before: Local, after: Local)
    requires Happened(Call(SaveCall, NewEntry(self.opId, self.intent), succeeds, before, after))
    ensures var next := if succeeds then Some(Created(NewEntry(self.opId, self.intent).(revision := 1))) else None;
            IsProtocolStep(Act(Create(self.a, succeeds), before, after, Cleared, next), self)
  {
    hide Happened, SaveIn, SaveSucceeds;
    forall s: State | Stands(s, self, Cleared, before) {
      CallEffect(s, self.tab, Call(SaveCall, NewEntry(self.opId, self.intent), succeeds, before, after));
    }
  }

  /** The entry at the moment of the wallet request. */
  function Awaiting(base: Entry, startedAt: string): Entry {
    base.(walletRequestStartedAt := Some(startedAt), status := AwaitingWallet)
  }

  lemma AwaitIsStep(self: Self, base: Entry, startedAt: string, succeeds: bool, before: Local, after: Local)
    requires Happened(Call(SaveCall, Awaiting(base, startedAt), succeeds, before, after))
    ensures var next := if succeeds then Some(Ready(Awaiting(base, startedAt).(revision := base.revision + 1))) else None;
            IsProtocolStep(Act(Await(self.a, startedAt, succeeds), before, after, Created(base), next), self)
  {
    hide Happened, SaveIn, SaveSucceeds;
    forall s: State | Stands(s, self, Created(base), before) {
      CallEffect(s, self.tab, Call(SaveCall, Awaiting(base, startedAt), succeeds, before, after));
    }
  }

  lemma AbandonIsStep(self: Self, phase: Phase, error: string, succeeds: bool, before: Local, after: Local)
    requires phase.Created? || phase.Ready?
    requires Happened(Call(SaveCall, Abandoned(phase, error), succeeds, before, after))
    ensures IsProtocolStep(Act(Abandon(self.a, error, succeeds), before, after, phase, None), self)
  {
    hide Happened, SaveIn, SaveSucceeds, Abandoned;
    forall s: State | Stands(s, self, phase, before) {
      CallEffect(s, self.tab, Call(SaveCall, Abandoned(phase, error), succeeds, before, after));
    }
  }

  lemma AskIsStep(self: Self, awaiting: Entry, v: Local)
    ensures IsProtocolStep(Act(Ask(self.a), v, v, Ready(awaiting), Some(Requested)), self)
  {
  }

  // ---- the surroundings of an attempt ----

  datatype WalletAnswer = Returns(hash: Hash) | UserRejects | RequestFails

  /** A wallet request, with the durable journal at that moment. */
  datatype Asked = Asked(id: string, durable: seq<Entry>)

  /** Why an attempt ends before its wallet request: what it reports, and the error it records. */
  datatype Problem = Problem(message: string, error: string)

  const CONTEXT_CHANGED := Problem("OPERATION_CONTEXT_CHANGED", "OPERATION_CONTEXT_CHANGED")
  const ENVIRONMENT_MISMATCH := Problem("OPERATION_ENVIRONMENT_MISMATCH", "OPERATION_ENVIRONMENT_MISMATCH")

  /** The chain, the wallet and the user's context around an attempt; each answer is arbitrary. */
  class Surroundings {
    ghost var asked: seq<Asked>
    var clock: nat
    const contextHoldsAt: nat -> bool
    const simulationErrorAt: nat -> Option<string>
    const environmentHoldsAt: nat -> bool
    const nonceReadAt: nat -> bool
    const answerAt: nat -> WalletAnswer

    constructor (contextHoldsAt: nat -> bool, simulationErrorAt: nat -> Option<string>, environmentHoldsAt: nat -> bool,
                 nonceReadAt: nat -> bool, answerAt: nat -> WalletAnswer)
      ensures asked == [] && this.contextHoldsAt == contextHoldsAt && this.simulationErrorAt == simulationErrorAt
      ensures this.environmentHoldsAt == environmentHoldsAt && this.nonceReadAt == nonceReadAt && this.answerAt == answerAt
    {
      asked, clock := [], 0;
      this.contextHoldsAt, this.simulationErrorAt, this.environmentHoldsAt := contextHoldsAt, simulationErrorAt, environmentHoldsAt;
      this.nonceReadAt, this.answerAt := nonceReadAt, answerAt;
    }

    /** The first check that fails before the attempt is recorded as AWAITING_WALLET. */
    function PreparationProblem(t: nat): Option<Problem> {
      if !contextHoldsAt(t) then Some(CONTEXT_CHANGED)
      else if simulationErrorAt(t + 1).Some? then Some(SimulationProblem(simulationErrorAt(t + 1).value))
      else if !contextHoldsAt(t + 2) then Some(CONTEXT_CHANGED)
      else None
    }

    /** The first check that fails after that. */
    function RequestProblem(t: nat): Option<Problem> {
      if !contextHoldsAt(t) then Some(CONTEXT_CHANGED)
      else if !environmentHoldsAt(t + 1) then Some(ENVIRONMENT_MISMATCH)
      else if !contextHoldsAt(t + 2) then Some(CONTEXT_CHANGED)
      else None
    }

    /** The first check that fails in an attempt that starts now. */
    function FirstProblem(t: nat): Option<Problem> {
      if PreparationProblem(t).Some? then PreparationProblem(t) else RequestProblem(t + 3)
    }

    static function SimulationProblem(message: string): Problem {
      Problem(message, if message == "OPERATION_CONTEXT_CHANGED" then message else "CHAIN_PRECONDITION_FAILED")
    }

    /** The checks before AWAITING_WALLET; other tabs write while the call is simulated. */
    method Prepare(journal: Journal) returns (problem: Option<Problem>)
      requires journal.Valid()
      modifies this`clock, journal.storage
      ensures journal.Valid() && journal.calls == old(journal.calls) && Waited(journal.storage, old(journal.Contents()), journal.Contents())
      ensures forall id, intent :: old(journal.Regular(id, intent)) ==> journal.Regular(id, intent)
      ensures problem == PreparationProblem(old(clock)) && (problem.None? ==> clock == old(clock) + 3)
      ensures old(journal.storage.Working()) ==> journal.storage.Working()
      ensures old(journal.storage.Alone()) ==> journal.storage.Alone() && journal.storage.entries == old(journal.storage.entries)
    {
      hide Journal.Regular, LocalStorage.OthersOn;
      WaitedForNobody(journal.storage, journal.Contents());
      if !contextHoldsAt(clock) {
        return Some(CONTEXT_CHANGED);
      }
      var failed := simulationErrorAt(clock + 1);
      AwaitOthers(journal);
      if failed.Some? {
        return Some(SimulationProblem(failed.value));
      }
      if !contextHoldsAt(clock + 2) {
        return Some(CONTEXT_CHANGED);
      }
      clock := clock + 3;
      return None;
    }

    /** The checks between AWAITING_WALLET and the wallet request; other tabs write during verifyBeforeSubmit. */
    method Verify(journal: Journal) returns (problem: Option<Problem>)
      requires journal.Valid()
      modifies this`clock, journal.storage
      ensures journal.Valid() && journal.calls == old(journal.calls) && Waited(journal.storage, old(journal.Contents()), journal.Contents())
      ensures forall id, intent :: old(journal.Regular(id, intent)) ==> journal.Regular(id, intent)
      ensures problem == RequestProblem(old(clock)) && (problem.None? ==> clock == old(clock) + 3)
      ensures old(journal.storage.Working()) ==> journal.storage.Working()
      ensures old(journal.storage.Alone()) ==> journal.storage.Alone() && journal.storage.entries == old(journal.storage.entries)
    {
      hide Journal.Regular, LocalStorage.OthersOn;
      WaitedForNobody(journal.storage, journal.Contents());
      if !contextHoldsAt(clock) {
        return Some(CONTEXT_CHANGED);
      }
      var holds := environmentHoldsAt(clock + 1);
      AwaitOthers(journal);
      if !holds {
        return Some(ENVIRONMENT_MISMATCH);
      }
      if !contextHoldsAt(clock + 2) {
        return Some(CONTEXT_CHANGED);
      }
      clock := clock + 3;
      return None;
    }

    method ReadNonce() returns (read: bool)
      modifies this`clock
    {
      read := nonceReadAt(clock);
      clock := clock + 1;
    }

    /** The wallet request. */
    method Ask(id: string, storage: LocalStorage) returns (answer: WalletAnswer)
      modifies this
      ensures asked == old(asked) + [Asked(id, storage.entries)] && answer == answerAt(old(clock))
    {
      asked := asked + [Asked(id, storage.entries)];
      answer := answerAt(clock);
      clock := clock + 1;
    }
  }

  // ---- one attempt ----

  datatype SubmissionResult =
    | ResultSubmitted(hash: Hash)
    | ResultNonDurable(hash: Hash)
    | ResultRejected(durable: bool)
    | ResultUnknown(durable: bool)
    | ResultFailed(message: string)
    | AttemptUnresolved
    | JournalThrew(error: JournalError)

  /** The journal knows the attempt: it was AWAITING_WALLET at revision 2, and still is unless someone wrote since. */
  predicate KnownAwaiting(durable: seq<Entry>, id: string, intent: Intent) {
    var e := Find(durable, id);
    e.Some? && e.value.revision >= 2 && (e.value.revision == 2 ==> e.value.status.AwaitingWallet? && e.value.intent == intent)
  }

  lemma AwaitingWaits(storage: LocalStorage, a: Local, b: Local, id: string, intent: Intent)
    requires Waited(storage, a, b) && UniqueIds(a.durable) && KnownAwaiting(a.durable, id, intent)
    ensures KnownAwaiting(b.durable, id, intent)
  {
    hide UniqueIds, Find, LocalStorage.OthersOn;
    storage.SameRevisionIsSame(a.durable, b.durable, id);
  }

  lemma AwaitingIsKnown(durable: seq<Entry>, e: Entry)
    requires Find(durable, e.id) == Some(e) && e.revision == 2 && e.status.AwaitingWallet?
    ensures KnownAwaiting(durable, e.id, e.intent)
  {
  }

  lemma UniqueWaits(storage: LocalStorage, a: Local, b: Local)
    requires Waited(storage, a, b) && UniqueIds(a.durable)
    ensures UniqueIds(b.durable)
  {
    hide UniqueIds, LocalStorage.OthersOn;
    storage.SameRevisionIsSame(a.durable, b.durable, "");
  }

  /** Saves this attempt's own entry, which has no volatile version. */
  method SaveOwn(journal: Journal, entry: Entry) returns (r: Result<Entry, JournalError>, ghost c: Call)
    requires journal.Valid() && UniqueIds(journal.storage.entries) && entry.id !in journal.volatileEntries
    modifies journal, journal.storage
    ensures journal.Valid() && UniqueIds(journal.storage.entries) && journal.volatileEntries == old(journal.volatileEntries)
    ensures Went(journal.storage, old(journal.Now()), journal.Now()) && journal.calls == old(journal.calls) + [c]
    ensures c == Call(SaveCall, entry, r.Success?, c.before, journal.Contents()) && Happened(c)
    ensures Waited(journal.storage, old(journal.Contents()), c.before)
    ensures r.Success? ==>
              && r.value == entry.(revision := entry.revision + 1)
              && Find(journal.storage.entries, entry.id) == Some(r.value)
    ensures old(journal.storage.Working()) ==> journal.storage.Working()
    ensures old(journal.storage.Alone()) ==> journal.storage.Alone()
    ensures old(journal.storage.Working()) && old(journal.storage.Alone())
            && RevisionIn(old(journal.storage.entries), entry.id) == entry.revision ==>
              r.Success?
  {
    hide Happened, Explains, PerformAll, UniqueIds, Find, Journal.Regular, LocalStorage.OthersOn;
    ghost var before, at := journal.Now(), [];
    r, at := journal.Save(entry);
    c := journal.calls[|before.calls|];
    UniqueGoesOn(journal.storage, before, journal.Now());
    ExplainedHappened(journal.storage, before.held, journal.calls[|before.calls|..], journal.Contents());
    if r.Success? {
      SavedIsShown(at, entry);
    }
  }

  /** Ends the attempt before any wallet request. */
  method FailBeforeSubmit(journal: Journal, entry: Entry, problem: Problem)
    returns (r: SubmissionResult, ghost c: Call)
    requires journal.Valid() && UniqueIds(journal.storage.entries) && entry.id !in journal.volatileEntries
    modifies journal, journal.storage
    ensures journal.Valid() && UniqueIds(journal.storage.entries)
    ensures Went(journal.storage, old(journal.Now()), journal.Now()) && journal.calls == old(journal.calls) + [c]
    ensures r == ResultFailed(problem.message) || r.JournalThrew?
    ensures var e := entry.(status := FailedBeforeSubmit, lastError := Some(problem.error));
            && (r.ResultFailed? ==> Find(journal.storage.entries, entry.id) == Some(e.(revision := e.revision + 1)))
            && c == Call(SaveCall, e, r.ResultFailed?, c.before, journal.Contents()) && Happened(c)
    ensures Waited(journal.storage, old(journal.Contents()), c.before)
  {
    hide Happened, Went, Waited, UniqueIds, Find;
    var saved;
    saved, c := SaveOwn(journal, entry.(status := FailedBeforeSubmit, lastError := Some(problem.error)));
    r := if saved.Success? then ResultFailed(problem.message) else JournalThrew(saved.error);
  }

  method FindUnresolved(journal: Journal, c: Context, a: Action) returns (unresolved: bool, readable: bool)
    requires journal.Valid()
    modifies journal.storage`clock
    ensures unresolved <==> HasUnresolved(if readable then journal.storage.entries else [], journal.volatileEntries, c, a)
    ensures old(journal.storage.Working()) ==> journal.storage.Working() && readable
    ensures old(journal.storage.Alone()) ==> journal.storage.Alone()
  {
    var view;
    view, readable := journal.Load();
    ghost var durable := if readable then journal.storage.entries else [];
    assert forall e :: e in view <==> InView(durable, journal.volatileEntries, e);
    for i := 0 to |view|
      invariant forall k :: 0 <= k < i ==> !(SameImmutableIntent(view[k].intent, c, a) && OwnsIntent(view[k].status))
    {
      if SameImmutableIntent(view[i].intent, c, a) && OwnsIntent(view[i].status) {
        assert view[i] in view;
        return true, readable;
      }
    }
    return false, readable;
  }

  /** The awaiting entry with the hash the wallet returned. */
  function Submission(awaiting: Entry, hash: Hash): Entry {
    awaiting.(evidence := awaiting.evidence.(originalTxHash := Some(hash), currentTxHash := Some(hash), association := Some(ExactSubmission)),
              evidenceSource := Some(WalletReturned), status := Submitted)
  }

  /** Saves a version over itself. */
  predicate Rewrites(c: Call) {
    c.kind.SaveCall? && (c.succeeds ==> ShownOf(c.before, c.entry.id) == Some(c.entry))
  }

  /** A write of the wallet's answer, merged into a version of this request, or of a version over itself. */
  ghost predicate IsAnswer(c: Call, awaiting: Entry, answer: WalletAnswer) {
    match answer
    case Returns(hash) => IsSubmission(c.entry, Submission(awaiting, hash)) || Rewrites(c)
    case UserRejects => IsOutcome(c.entry, awaiting, OutcomeRejected)
    case RequestFails => IsOutcome(c.entry, awaiting, OutcomeUnknown)
  }

  /** The later writes are all of that answer. */
  ghost predicate AreAnswers(earlier: seq<Call>, later: seq<Call>, awaiting: Entry, answer: WalletAnswer) {
    earlier <= later && forall i :: |earlier| <= i < |later| ==> IsAnswer(later[i], awaiting, answer)
  }

  lemma AnswersGrow(earlier: seq<Call>, later: seq<Call>, cs: seq<Call>, awaiting: Entry, hash: Hash)
    requires AreSubmissions(earlier, later, Submission(awaiting, hash))
    ensures (forall c <- cs :: IsAnswer(c, awaiting, Returns(hash))) ==> AreAnswers(earlier, later + cs, awaiting, Returns(hash))
  {
    hide IsSubmission, Rewrites;
  }

  lemma SaveRewrites(storage: LocalStorage, v: Local, c: Call)
    requires UniqueIds(v.durable) && ShownOf(v, c.entry.id) == Some(c.entry) && Waited(storage, v, c.before)
    requires c.kind.SaveCall? && (c.succeeds ==> Writable(c.before, c.entry))
    ensures Rewrites(c)
  {
    hide UniqueIds, Find, LocalStorage.OthersOn;
    storage.SameRevisionIsSame(v.durable, c.before.durable, c.entry.id);
  }

  /** Once the hash is recorded: enriches the version shown, which changes nothing modelled. */
  method EnrichHash(journal: Journal, world: Surroundings, persisted: Entry) returns (ghost cs: seq<Call>)
    requires journal.Valid()
    modifies journal, journal.storage, world`clock
    ensures journal.Valid() && Went(journal.storage, old(journal.Now()), journal.Now()) && journal.calls == old(journal.calls) + cs && |cs| <= 1
    ensures UniqueIds(old(journal.storage.entries)) && old(Shows(journal, persisted)) ==> forall c <- cs :: Rewrites(c)
    ensures old(InOrder(journal, persisted)) ==> CallsFit(old(journal.calls), journal.calls, persisted.id, persisted.intent)
  {
    hide Journal.Regular, Went, Happened, InView, UniqueIds, Rewrites, LocalStorage.OthersOn, LocalStorage.Working, LocalStorage.Alone, Fits;
    WentNowhere(journal.storage, journal.Now());
    var enriched := world.ReadNonce();
    AwaitOthers(journal);
    ghost var read := journal.Now();
    WentWaiting(journal.storage, old(journal.Now()), read);
    if !enriched {
      return [];
    }
    var current, _ := journal.Current(persisted.id);
    ShownIsInOrder(journal, persisted, current);
    var saved;
    ghost var c;
    saved, c := SaveAndShow(journal, if current.Some? then current.value else persisted);
    WentOn(journal.storage, old(journal.Now()), read, journal.Now());
    if UniqueIds(old(journal.storage.entries)) && old(Shows(journal, persisted)) {
      UniqueGoesOn(journal.storage, old(journal.Now()), read);
      if current.Some? {
        ShownIsInView(read.held, current.value);
        SaveRewrites(journal.storage, read.held, c);
      } else {
        WaitedOn(journal.storage, old(journal.Contents()), read.held, c.before);
        SaveRewrites(journal.storage, old(journal.Contents()), c);
      }
    }
    return [c];
  }

  /** After the wallet returned a hash: records it durably, or in the overlay. */
  method RecordHash(journal: Journal, world: Surroundings, awaiting: Entry, hash: Hash) returns (r: SubmissionResult)
    requires journal.Valid()
    modifies journal, journal.storage, world`clock
    ensures journal.Valid() && Went(journal.storage, old(journal.Now()), journal.Now())
    ensures r == ResultSubmitted(hash) || r == ResultNonDurable(hash)
    ensures r == ResultNonDurable(hash) ==> awaiting.id in journal.volatileEntries && HashOf(journal.volatileEntries[awaiting.id]) == Some(hash)
    ensures UniqueIds(old(journal.storage.entries)) ==> AreAnswers(old(journal.calls), journal.calls, awaiting, Returns(hash))
    ensures old(InOrder(journal, awaiting)) ==> CallsFit(old(journal.calls), journal.calls, awaiting.id, awaiting.intent)
  {
    hide Journal.Regular, Went, Happened, UniqueIds, Rewrites, AreSubmissions, AreAnswers, KeepHashes, MadeFrom, Receives, CallsFit,
         LocalStorage.Working, LocalStorage.Alone, LocalStorage.OthersOn;
    ghost var ordered, start := InOrder(journal, awaiting), journal.Now();
    var submitted := Submission(awaiting, hash);
    var persisted := PersistReturnedHash(journal, submitted);
    ghost var after := journal.Now();
    if persisted.Failure? {
      var stored := journal.SaveVolatile(submitted);
      WentOn(journal.storage, start, after, journal.Now());
      AnswersGrow(start.calls, after.calls, [journal.calls[|after.calls|]], awaiting, hash);
      if ordered {
        OneMoreFits(start.calls, after.calls, journal.calls[|after.calls|], awaiting.id, awaiting.intent);
      }
      return ResultNonDurable(hash);
    }
    UniqueGoesOn(journal.storage, start, after);
    if UniqueIds(start.held.durable) && InView(journal.storage.entries, journal.volatileEntries, persisted.value) {
      ShownIsInView(journal.Contents(), persisted.value);
    }
    ghost var cs := EnrichHash(journal, world, persisted.value);
    WentOn(journal.storage, start, after, journal.Now());
    if cs == [] {
      assert journal.calls == after.calls;
      AnswersGrow(start.calls, after.calls, [], awaiting, hash);
    } else {
      assert cs == [cs[0]];
      AnswersGrow(start.calls, after.calls, cs, awaiting, hash);
    }
    if ordered {
      CallsFitOn(start.calls, after.calls, journal.calls, awaiting.id, awaiting.intent);
    }
    return ResultSubmitted(hash);
  }

  lemma OneMoreFits(earlier: seq<Call>, later: seq<Call>, c: Call, id: string, intent: Intent)
    requires CallsFit(earlier, later, id, intent) && Fits(c.entry, id, intent)
    ensures CallsFit(earlier, later + [c], id, intent)
  {
    hide Fits;
  }

  lemma OutcomesAreAnswers(earlier: seq<Call>, later: seq<Call>, awaiting: Entry, answer: WalletAnswer)
    requires match answer
             case Returns(_) => false
             case UserRejects => AreOutcomes(earlier, later, awaiting, OutcomeRejected)
             case RequestFails => AreOutcomes(earlier, later, awaiting, OutcomeUnknown)
    ensures AreAnswers(earlier, later, awaiting, answer)
  {
    hide IsOutcome;
  }

  /** The result tells the wallet's answer. */
  predicate Tells(r: SubmissionResult, answer: WalletAnswer) {
    match answer
    case Returns(hash) => r == ResultSubmitted(hash) || r == ResultNonDurable(hash)
    case UserRejects => r.ResultRejected?
    case RequestFails => r.ResultUnknown?
  }

  /** After the wallet request: records what came of it. */
  method RecordAnswer(journal: Journal, world: Surroundings, awaiting: Entry, answer: WalletAnswer) returns (r: SubmissionResult)
    requires journal.Valid()
    modifies journal, journal.storage, world`clock
    ensures journal.Valid() && Went(journal.storage, old(journal.Now()), journal.Now()) && Tells(r, answer)
    ensures match answer
            case Returns(hash) =>
              r.ResultNonDurable? ==> awaiting.id in journal.volatileEntries && HashOf(journal.volatileEntries[awaiting.id]) == Some(hash)
            case UserRejects => r.durable ==> OutcomeShown(journal, awaiting, OutcomeRejected)
            case RequestFails => r.durable ==> OutcomeShown(journal, awaiting, OutcomeUnknown)
    ensures UniqueIds(old(journal.storage.entries)) ==> AreAnswers(old(journal.calls), journal.calls, awaiting, answer)
    ensures old(InOrder(journal, awaiting)) ==> CallsFit(old(journal.calls), journal.calls, awaiting.id, awaiting.intent)
  {
    hide Journal.Regular, Went, CallsFit, OutcomeShown, AreOutcomes, AreAnswers, UniqueIds, Writable, LocalStorage.Working, LocalStorage.Alone;
    match answer {
      case Returns(hash) =>
        r := RecordHash(journal, world, awaiting, hash);
      case UserRejects =>
        var durable := PersistWalletOutcome(journal, awaiting, OutcomeRejected);
        OutcomesAreAnswers(old(journal.calls), journal.calls, awaiting, answer);
        r := ResultRejected(durable);
      case RequestFails =>
        var durable := PersistWalletOutcome(journal, awaiting, OutcomeUnknown);
        OutcomesAreAnswers(old(journal.calls), journal.calls, awaiting, answer);
        r := ResultUnknown(durable);
    }
  }

  /** Nothing keeps an attempt from asking the wallet. */
  ghost predicate Unhindered(journal: Journal, world: Surroundings, c: Context, a: Action, id: string)
    reads journal, journal.storage, world
  {
    && journal.storage.Working() && journal.storage.Alone() && world.FirstProblem(world.clock).None?
    && RevisionIn(journal.storage.entries, id) == 0
    && !HasUnresolved(journal.storage.entries, journal.volatileEntries, c, a)
  }

  // ---- the steps so far ----

  /** From one moment to another the tab did exactly these steps of the attempt; in between only other tabs wrote. */
  ghost predicate Attempted(storage: LocalStorage, start: Moment, acts: seq<Act>, now: Moment, self: Self) {
    && IsAttempt(storage, acts, self) && acts[0].before == acts[0].after == start.held
    && Went(storage, start, now) && AreActsOf(acts, now.calls[|start.calls|..])
    && Waited(storage, acts[|acts| - 1].after, now.held)
  }

  lemma AttemptWaits(storage: LocalStorage, start: Moment, acts: seq<Act>, a: Moment, b: Moment, self: Self)
    requires Attempted(storage, start, acts, a, self) && a.calls == b.calls && Waited(storage, a.held, b.held)
    ensures Attempted(storage, start, acts, b, self)
  {
    hide IsProtocolStep, Continues, Waited, Went, AreActsOf;
    WentWaiting(storage, a, b);
    WentOn(storage, start, a, b);
    WaitedOn(storage, acts[|acts| - 1].after, a.held, b.held);
  }

  lemma AttemptGoesOn(storage: LocalStorage, start: Moment, acts: seq<Act>, a: Moment, act: Act, c: Call, self: Self)
    requires Attempted(storage, start, acts, a, self) && acts[|acts| - 1].next == Some(act.phase)
    requires IsProtocolStep(act, self) && act.before == c.before && act.after == c.after && Happened(c) && Waited(storage, a.held, c.before)
    ensures Attempted(storage, start, acts + [act], Moment(a.calls + [c], c.after), self)
  {
    AttemptIsSome(storage, start, acts, a, self);
    hide IsAttempt, IsProtocolStep, Happened, Waited, Went, AreActsOf;
    WaitedOn(storage, acts[|acts| - 1].after, a.held, c.before);
    GoesOn(storage, acts, act, self);
    assert a.calls == start.calls + a.calls[|start.calls|..] by {
      WentIsLater(storage, start, a);
    }
    ActsGrow(acts, acts + [act], start.calls, a.calls, c);
    WentByOne(storage, a, c);
    WentOn(storage, start, a, Moment(a.calls + [c], c.after));
    WaitedForNobody(storage, c.after);
  }

  lemma WentIsLater(storage: LocalStorage, a: Moment, b: Moment)
    requires Went(storage, a, b)
    ensures a.calls <= b.calls
  {
    hide Explains;
  }

  lemma WaitedForNobody(storage: LocalStorage, v: Local)
    ensures Waited(storage, v, v)
  {
    hide LocalStorage.OthersOn;
    storage.NobodyOn(v.durable);
  }

  lemma Checked(storage: LocalStorage, now: Moment, self: Self, c: Context, a: Action, readable: bool, unresolved: bool)
    returns (acts: seq<Act>)
    requires self.intent == IntentOf(c, a)
    requires unresolved <==> HasUnresolved(if readable then now.held.durable else [], now.held.overlay, c, a)
    ensures Attempted(storage, now, acts, now, self) && !acts[|acts| - 1].step.Ask?
    ensures acts[|acts| - 1].next == if unresolved then None else Some(Cleared)
  {
    hide HasUnresolved, IsProtocolStep, Waited, Went;
    var v := now.held;
    CheckIsStep(self, c, a, v, readable, unresolved);
    WentNowhere(storage, now);
    WaitedForNobody(storage, v);
    acts := [Act(Check(self.a, readable), v, v, Checking, if unresolved then None else Some(Cleared))];
  }

  lemma CreatedNext(storage: LocalStorage, start: Moment, acts: seq<Act>, a: Moment, self: Self, c: Call) returns (acts': seq<Act>)
    requires Attempted(storage, start, acts, a, self) && acts[|acts| - 1].next == Some(Cleared)
    requires Happened(c) && c.kind.SaveCall? && c.entry == NewEntry(self.opId, self.intent) && Waited(storage, a.held, c.before)
    ensures Attempted(storage, start, acts', Moment(a.calls + [c], c.after), self) && !acts'[|acts'| - 1].step.Ask?
    ensures acts'[|acts'| - 1].next == if c.succeeds then Some(Created(NewEntry(self.opId, self.intent).(revision := 1))) else None
  {
    hide IsProtocolStep, Happened, Attempted, Waited;
    CreateIsStep(self, c.succeeds, c.before, c.after);
    var next := if c.succeeds then Some(Created(NewEntry(self.opId, self.intent).(revision := 1))) else None;
    var act := Act(Create(self.a, c.succeeds), c.before, c.after, Cleared, next);
    AttemptGoesOn(storage, start, acts, a, act, c, self);
    acts' := acts + [act];
  }

  lemma AwaitingNext(storage: LocalStorage, start: Moment, acts: seq<Act>, a: Moment, self: Self, base: Entry, startedAt: string, c: Call)
    returns (acts': seq<Act>)
    requires Attempted(storage, start, acts, a, self) && acts[|acts| - 1].next == Some(Created(base))
    requires Happened(c) && c.kind.SaveCall? && c.entry == Awaiting(base, startedAt) && Waited(storage, a.held, c.before)
    ensures Attempted(storage, start, acts', Moment(a.calls + [c], c.after), self) && !acts'[|acts'| - 1].step.Ask?
    ensures acts'[|acts'| - 1].next ==
            if c.succeeds then Some(Ready(Awaiting(base, startedAt).(revision := base.revision + 1))) else None
  {
    hide IsProtocolStep, Happened, Attempted, Waited;
    AwaitIsStep(self, base, startedAt, c.succeeds, c.before, c.after);
    var next := if c.succeeds then Some(Ready(Awaiting(base, startedAt).(revision := base.revision + 1))) else None;
    var act := Act(Await(self.a, startedAt, c.succeeds), c.before, c.after, Created(base), next);
    AttemptGoesOn(storage, start, acts, a, act, c, self);
    acts' := acts + [act];
  }

  lemma AbandonedNext(storage: LocalStorage, start: Moment, acts: seq<Act>, a: Moment, self: Self, phase: Phase, error: string, c: Call)
    returns (acts': seq<Act>)
    requires Attempted(storage, start, acts, a, self) && acts[|acts| - 1].next == Some(phase) && (phase.Created? || phase.Ready?)
    requires Happened(c) && c.kind.SaveCall? && c.entry == Abandoned(phase, error) && Waited(storage, a.held, c.before)
    ensures Attempted(storage, start, acts', Moment(a.calls + [c], c.after), self) && !acts'[|acts'| - 1].step.Ask?
  {
    hide IsProtocolStep, Happened, Attempted, Waited, Abandoned;
    AbandonIsStep(self, phase, error, c.succeeds, c.before, c.after);
    var act := Act(Abandon(self.a, error, c.succeeds), c.before, c.after, phase, None);
    AttemptGoesOn(storage, start, acts, a, act, c, self);
    acts' := acts + [act];
  }

  /** The wallet request is a step as well. */
  lemma AskedNext(storage: LocalStorage, start: Moment, acts: seq<Act>, now: Moment, self: Self, awaiting: Entry) returns (acts': seq<Act>)
    requires Attempted(storage, start, acts, now, self) && acts[|acts| - 1].next == Some(Ready(awaiting))
    ensures IsAttempt(storage, acts', self) && |acts'| == |acts| + 1 && acts'[..|acts|] == acts
    ensures acts'[|acts|] == Act(Ask(self.a), now.held, now.held, Ready(awaiting), Some(Requested))
  {
    hide IsProtocolStep, Waited, Went, AreActsOf;
    AskIsStep(self, awaiting, now.held);
    var act := Act(Ask(self.a), now.held, now.held, Ready(awaiting), Some(Requested));
    GoesOn(storage, acts, act, self);
    acts' := acts + [act];
  }

  /** The start of an attempt: checks for unresolved attempts and records the intent. */
  method RecordIntent(journal: Journal, c: Context, a: Action, id: string, ghost self: Self)
    returns (early: Option<SubmissionResult>, base: Entry, readable: bool, ghost acts: seq<Act>)
    requires journal.Valid() && UniqueIds(journal.storage.entries) && id !in journal.volatileEntries
    requires self.opId == id && self.intent == IntentOf(c, a)
    modifies journal, journal.storage
    ensures journal.Valid() && UniqueIds(journal.storage.entries)
    ensures Attempted(journal.storage, old(journal.Now()), acts, journal.Now(), self) && !acts[|acts| - 1].step.Ask?
    ensures early == Some(AttemptUnresolved) <==>
              HasUnresolved(if readable then old(journal.storage.entries) else [], old(journal.volatileEntries), c, a)
    ensures early == Some(AttemptUnresolved) ==> journal.Now() == old(journal.Now())
    ensures early.Some? ==> early.value.AttemptUnresolved? || early.value.JournalThrew?
    ensures early.None? ==>
              && base == NewEntry(id, IntentOf(c, a)).(revision := 1)
              && acts[|acts| - 1].next == Some(Created(base))
              && Find(journal.storage.entries, id) == Some(base) && id !in journal.volatileEntries
    ensures old(journal.storage.Working()) ==> journal.storage.Working() && readable
    ensures old(journal.storage.Alone()) ==> journal.storage.Alone()
    ensures old(journal.storage.Working()) && old(journal.storage.Alone()) && RevisionIn(old(journal.storage.entries), id) == 0 ==>
              early.None? || early.value.AttemptUnresolved?
  {
    hide Happened, Attempted, HasUnresolved, PerformAll, UniqueIds, Find, IntentOf, Keeps, Waited, Went,
         LocalStorage.Working, LocalStorage.Alone, Journal.Regular;
    var unresolved;
    unresolved, readable := FindUnresolved(journal, c, a);
    ghost var start := journal.Now();
    acts := Checked(journal.storage, start, self, c, a, readable, unresolved);
    base := NewEntry(id, IntentOf(c, a));
    if unresolved {
      return Some(AttemptUnresolved), base, readable, acts;
    }
    ghost var call;
    var saved;
    saved, call := SaveOwn(journal, base);
    acts := CreatedNext(journal.storage, start, acts, start, self, call);
    if saved.Failure? {
      return Some(JournalThrew(saved.error)), base, readable, acts;
    }
    return None, saved.value, readable, acts;
  }

  /** The first half of an attempt: checks for unresolved attempts, records the intent, checks the preconditions and
      records that the wallet is about to be asked. */
  method PrepareAttempt(journal: Journal, world: Surroundings, c: Context, a: Action, id: string, startedAt: string, ghost self: Self)
    returns (early: Option<SubmissionResult>, awaiting: Entry, readable: bool, ghost acts: seq<Act>)
    requires journal.Valid() && UniqueIds(journal.storage.entries) && id !in journal.volatileEntries
    requires self.opId == id && self.intent == IntentOf(c, a)
    modifies journal, journal.storage, world`clock
    ensures journal.Valid() && UniqueIds(journal.storage.entries)
    ensures Attempted(journal.storage, old(journal.Now()), acts, journal.Now(), self)
    ensures early == Some(AttemptUnresolved) <==>
              HasUnresolved(if readable then old(journal.storage.entries) else [], old(journal.volatileEntries), c, a)
    ensures early == Some(AttemptUnresolved) ==> journal.Now() == old(journal.Now())
    ensures early.Some? ==>
              && !acts[|acts| - 1].step.Ask? && (early.value.AttemptUnresolved? || early.value.ResultFailed? || early.value.JournalThrew?)
              && (early.value.ResultFailed? ==>
                    var problem := world.PreparationProblem(old(world.clock));
                    problem.Some? && early.value.message == problem.value.message)
    ensures early.None? ==>
              && world.PreparationProblem(old(world.clock)).None? && world.clock == old(world.clock) + 3
              && acts[|acts| - 1].next == Some(Ready(awaiting))
              && awaiting.id == id && awaiting.intent == IntentOf(c, a) && awaiting.revision == 2 && awaiting.status.AwaitingWallet?
              && Find(journal.storage.entries, id) == Some(awaiting) && id !in journal.volatileEntries
    ensures old(Unhindered(journal, world, c, a, id)) ==> early.None?
  {
    hide Happened, Attempted, HasUnresolved, PerformAll, UniqueIds, Find, IntentOf, Waited, Went,
         Surroundings.PreparationProblem, Surroundings.RequestProblem, Keeps, Journal.Regular, LocalStorage.Working, LocalStorage.Alone;
    ghost var start := journal.Now();
    var base;
    early, base, readable, acts := RecordIntent(journal, c, a, id, self);
    if early.Some? {
      return early, base, readable, acts;
    }
    ghost var recorded := journal.Now();
    var problem := world.Prepare(journal);
    ghost var prepared := journal.Now();
    AttemptWaits(journal.storage, start, acts, recorded, prepared, self);
    UniqueWaits(journal.storage, recorded.held, prepared.held);
    ghost var call;
    if problem.Some? {
      var failed;
      failed, call := FailBeforeSubmit(journal, base, problem.value);
      acts := AbandonedNext(journal.storage, start, acts, prepared, self, Created(base), problem.value.error, call);
      return Some(failed), base, readable, acts;
    }
    var saved;
    saved, call := SaveOwn(journal, Awaiting(base, startedAt));
    acts := AwaitingNext(journal.storage, start, acts, prepared, self, base, startedAt, call);
    if saved.Failure? {
      return Some(JournalThrew(saved.error)), base, readable, acts;
    }
    return None, saved.value, readable, acts;
  }

  /** An operation of which only its own entry is stored. */
  lemma OwnFits(durable: seq<Entry>, e: Entry)
    requires UniqueIds(durable) && Find(durable, e.id) == Some(e) && Fits(e, e.id, e.intent)
    ensures AllFit(durable, e.id, e.intent)
  {
    forall other <- durable ensures other.id == e.id ==> other == e {
      if other.id == e.id {
        UniqueIsFound(durable, other);
      }
    }
  }

  /** The second half: checks once more, asks the wallet and records its answer. `start` is when the attempt started,
      and `requested` when the wallet was asked. */
  method RequestWallet(journal: Journal, world: Surroundings, awaiting: Entry, ghost self: Self, ghost start: Moment, ghost so: seq<Act>)
    returns (r: SubmissionResult, ghost acts: seq<Act>, ghost requested: Moment)
    requires journal.Valid() && UniqueIds(journal.storage.entries) && Attempted(journal.storage, start, so, journal.Now(), self)
    requires so[|so| - 1].next == Some(Ready(awaiting))
    requires awaiting.id == self.opId && awaiting.intent == self.intent && awaiting.revision == 2 && awaiting.status.AwaitingWallet?
    requires Find(journal.storage.entries, awaiting.id) == Some(awaiting) && awaiting.id !in journal.volatileEntries
    modifies journal, journal.storage, world
    ensures journal.Valid() && acts != []
    ensures if acts[|acts| - 1].step.Ask? then
              && IsAttempt(journal.storage, acts, self) && Attempted(journal.storage, start, acts[..|acts| - 1], requested, self)
              && acts[|acts| - 1] == Act(Ask(self.a), requested.held, requested.held, Ready(awaiting), Some(Requested))
              && world.asked == old(world.asked) + [Asked(self.opId, requested.held.durable)]
              && KnownAwaiting(requested.held.durable, self.opId, self.intent)
              && Went(journal.storage, requested, journal.Now())
              && AreAnswers(requested.calls, journal.calls, awaiting, world.answerAt(old(world.clock) + 3))
              && Tells(r, world.answerAt(old(world.clock) + 3))
              && (journal.storage.OthersKeep(self.opId, self.intent) ==>
                    AreWrites(requested.calls, journal.calls, self.opId, self.intent))
            else
              && Attempted(journal.storage, start, acts, journal.Now(), self)
              && world.asked == old(world.asked) && (r.ResultFailed? || r.JournalThrew?)
    ensures var problem := world.RequestProblem(old(world.clock));
            && (acts[|acts| - 1].step.Ask? <==> problem.None?)
            && (r.ResultFailed? ==> problem.Some? && r.message == problem.value.message)
  {
    hide Happened, Attempted, IsAttempt, KnownAwaiting, PerformAll, UniqueIds, OutcomeShown, Went, Waited, AreAnswers, AreWrites, CallsFit,
         LocalStorage.OthersOn, LocalStorage.OthersKeep, Surroundings.RequestProblem, AllFit, IsAnswer;
    ghost var before := journal.Now();
    AwaitingIsKnown(journal.storage.entries, awaiting);
    OwnFits(journal.storage.entries, awaiting);
    hide Find;
    var problem := world.Verify(journal);
    requested := journal.Now();
    AttemptWaits(journal.storage, start, so, before, requested, self);
    UniqueWaits(journal.storage, before.held, requested.held);
    AwaitingWaits(journal.storage, before.held, requested.held, self.opId, self.intent);
    if problem.Some? {
      ghost var call;
      r, call := FailBeforeSubmit(journal, awaiting, problem.value);
      acts := AbandonedNext(journal.storage, start, so, requested, self, Ready(awaiting), problem.value.error, call);
      AttemptIsSome(journal.storage, start, acts, journal.Now(), self);
      return;
    }
    acts := AskedNext(journal.storage, start, so, requested, self, awaiting);
    var answer := world.Ask(awaiting.id, journal.storage);
    r := RecordAnswer(journal, world, awaiting, answer);
    if journal.storage.OthersKeep(self.opId, self.intent) {
      CallsAreWrites(journal.storage, requested, journal.Now(), self.opId, self.intent);
    }
  }

  /** submitOwnedOperation. Up to the wallet request it takes protocol steps, and asks the wallet exactly with an Ask
      step: at most once, durably recorded as AWAITING_WALLET, with no unresolved attempt seen and every check passed.
      Every write after the request is of the wallet's answer and an enabled protocol step too, as long as other tabs
      keep the operation's intent. It ends early exactly if it saw an unresolved attempt; a failure reports the first
      check that failed; if nothing hinders it, the wallet is asked. `requested` is when it was. */
  method SubmitOwnedOperation(journal: Journal, world: Surroundings, c: Context, a: Action, id: string, startedAt: string,
                              ghost attempt: nat, ghost tab: nat)
    returns (r: SubmissionResult, readable: bool, ghost acts: seq<Act>, ghost requested: Moment)
    requires journal.Valid() && UniqueIds(journal.storage.entries) && id !in journal.volatileEntries
    modifies journal, journal.storage, world
    ensures journal.Valid() && acts != []
    ensures var self := Self(attempt, tab, id, IntentOf(c, a));
            if acts[|acts| - 1].step.Ask? then
              var request, answer := acts[|acts| - 1], world.answerAt(old(world.clock) + 6);
              && IsAttempt(journal.storage, acts, self)
              && Attempted(journal.storage, old(journal.Now()), acts[..|acts| - 1], requested, self)
              && request.before == requested.held && request.phase.Ready?
              && world.asked == old(world.asked) + [Asked(id, requested.held.durable)]
              && KnownAwaiting(requested.held.durable, id, IntentOf(c, a)) && world.FirstProblem(old(world.clock)).None?
              && Went(journal.storage, requested, journal.Now()) && Tells(r, answer)
              && AreAnswers(requested.calls, journal.calls, request.phase.awaiting, answer)
              && (journal.storage.OthersKeep(id, IntentOf(c, a)) ==> AreWrites(requested.calls, journal.calls, id, IntentOf(c, a)))
            else
              && Attempted(journal.storage, old(journal.Now()), acts, journal.Now(), self)
              && world.asked == old(world.asked) && (r.AttemptUnresolved? || r.ResultFailed? || r.JournalThrew?)
    ensures r.AttemptUnresolved? <==>
              HasUnresolved(if readable then old(journal.storage.entries) else [], old(journal.volatileEntries), c, a)
    ensures r.AttemptUnresolved? ==> journal.Now() == old(journal.Now())
    ensures r.ResultFailed? ==>
              var problem := world.FirstProblem(old(world.clock)); problem.Some? && r.message == problem.value.message
    ensures old(Unhindered(journal, world, c, a, id)) ==> |world.asked| == |old(world.asked)| + 1
  {
    hide Attempted, IsAttempt, HasUnresolved, KnownAwaiting, UniqueIds, Find, IntentOf, Went, Waited, AreAnswers, AreWrites,
         LocalStorage.OthersKeep, LocalStorage.Working, LocalStorage.Alone,
         Surroundings.PreparationProblem, Surroundings.RequestProblem;
    ghost var self, start := Self(attempt, tab, id, IntentOf(c, a)), journal.Now();
    var early, awaiting;
    early, awaiting, readable, acts := PrepareAttempt(journal, world, c, a, id, startedAt, self);
    requested := journal.Now();
    AttemptIsSome(journal.storage, start, acts, requested, self);
    if early.Some? {
      return early.value, readable, acts, requested;
    }
    r, acts, requested := RequestWallet(journal, world, awaiting, self, start, acts);
  }

  lemma AttemptIsSome(storage: LocalStorage, start: Moment, acts: seq<Act>, now: Moment, self: Self)
    requires Attempted(storage, start, acts, now, self)
    ensures acts != []
  {
    hide IsProtocolStep, Continues;
  }
}
