/** Many tabs submitting and recovering at once: any interleaving of their journal writes, write failures and
    tab deaths. When may a wallet be asked a second time for one intent? */
module SubmissionProtocol {
  import opened Wrappers
  import opened TransactionJournal
  import opened WalletSubmission

  /** Where an attempt stands between two of its awaits. It holds its intent's lock throughout. */
  datatype Phase =
    | Checking
    | Cleared
    | Created(base: Entry)
    | Ready(awaiting: Entry)
    | Requested

  datatype Attempt = Attempt(tab: nat, opId: string, intent: Intent, phase: Phase)

  /** Durable journal, every tab's overlay with its base revisions, and the attempts in flight.
      History: which operation has which intent, which were durably AWAITING_WALLET, which asked the wallet, which
      were ever recorded in a status that gives the intent up, and which checked for earlier attempts while storage
      could not be read. */
  datatype State = State(
    durable: seq<Entry>, overlays: map<nat, map<string, Entry>>, bases: map<nat, map<string, nat>>,
    attempts: map<nat, Attempt>,
    known: map<string, Intent>, awaited: set<string>, asked: seq<string>, released: set<string>, blind: set<string>)

  const INITIAL := State([], map[], map[], map[], map[], {}, [], {}, {})

  /** Up to the case of its hex text: what the lock and the check compare. */
  function Named(i: Intent): Intent {
    i.(deploymentId := Lower(i.deploymentId), account := Lower(i.account), contract := Lower(i.contract), calldata := Lower(i.calldata))
  }

  lemma NamedIsSameIntent(i: Intent, c: Context, a: Action)
    ensures SameImmutableIntent(i, c, a) <==> Named(i) == Named(IntentOf(c, a))
  {
  }

  /** REJECTED, FAILED_BEFORE_SUBMIT, INCLUDED_REVERTED or REPLACED_OR_CANCELLED. */
  predicate GivesUp(status: TxStatus) {
    status.Rejected? || status.FailedBeforeSubmit? || status.IncludedReverted? || status.ReplacedOrCancelled?
  }

  lemma OwnsOrGivesUp(status: TxStatus)
    ensures !status.Idle? ==> (OwnsIntent(status) <==> !GivesUp(status))
  {
  }

  function Overlay(s: State, tab: nat): map<string, Entry> {
    if tab in s.overlays then s.overlays[tab] else map[]
  }

  function BaseOf(s: State, tab: nat, id: string): nat {
    if tab in s.bases && id in s.bases[tab] then s.bases[tab][id] else 0
  }

  /** An entry was recorded, durably or in an overlay. */
  function Noted(s: State, e: Entry): State {
    if GivesUp(e.status) then s.(released := s.released + {e.id}) else s
  }

  function WithDurable(s: State, w: Written): State {
    var noted := Noted(s.(durable := w.entries), w.stored);
    if w.stored.status.AwaitingWallet? then noted.(awaited := noted.awaited + {w.stored.id}) else noted
  }

  function WithOverlay(s: State, tab: nat, e: Entry): State {
    Noted(s.(overlays := s.overlays[tab := Overlay(s, tab)[e.id := e]]), e)
  }

  /** save in a tab; `works` is whether storage can be read and written. */
  function SaveIn(s: State, tab: nat, e: Entry, works: bool): State {
    if e.id in Overlay(s, tab) then
      if e.revision == Overlay(s, tab)[e.id].revision then WithOverlay(s, tab, e.(revision := e.revision + 1)) else s
    else if !works || DurableSave(s.durable, e).Failure? then s
    else WithDurable(s, DurableSave(s.durable, e).value)
  }

  function RetryIn(s: State, tab: nat, e: Entry, works: bool): State {
    if e.id !in Overlay(s, tab) then SaveIn(s, tab, e, works)
    else if e.revision != Overlay(s, tab)[e.id].revision || !works || DurableRetry(s.durable, e, BaseOf(s, tab, e.id)).Failure? then s
    else
      var written := WithDurable(s, DurableRetry(s.durable, e, BaseOf(s, tab, e.id)).value);
      written.(overlays := written.overlays[tab := Overlay(s, tab) - {e.id}],
               bases := if tab in s.bases then s.bases[tab := s.bases[tab] - {e.id}] else s.bases)
  }

  function SaveVolatileIn(s: State, tab: nat, e: Entry): State {
    var based := if tab in s.bases && e.id in s.bases[tab] then s
                 else s.(bases := s.bases[tab := (if tab in s.bases then s.bases[tab] else map[])[e.id := e.revision]]);
    WithOverlay(based, tab, e.(revision := e.revision + 1))
  }

  function EndAttempt(s: State, a: nat): State {
    s.(attempts := s.attempts - {a})
  }

  function SetPhase(s: State, a: nat, phase: Phase): State
    requires a in s.attempts
  {
    s.(attempts := s.attempts[a := s.attempts[a].(phase := phase)])
  }

  /** The save of an attempt's own entry: it goes on if the save succeeded, else it ends. */
  predicate SaveSucceeds(s: State, tab: nat, e: Entry, works: bool) {
    if e.id in Overlay(s, tab) then e.revision == Overlay(s, tab)[e.id].revision
    else works && DurableSave(s.durable, e).Success?
  }

  datatype Step =
    | Start(a: nat, tab: nat, opId: string, intent: Intent)
    | Check(a: nat, readable: bool)
    | Create(a: nat, works: bool)
    | Abandon(a: nat, error: string, works: bool)
    | Await(a: nat, startedAt: string, works: bool)
    | Ask(a: nat)
    | Settle(a: nat)
    | SaveBy(tab: nat, e: Entry, works: bool)
    | RetryBy(tab: nat, e: Entry, works: bool)
    | SaveVolatileBy(tab: nat, e: Entry)
    | Death(tab: nat)

  predicate PhaseIs(s: State, a: nat, checking: bool, cleared: bool, created: bool, ready: bool, requested: bool) {
    && a in s.attempts
    && match s.attempts[a].phase
       case Checking => checking
       case Cleared => cleared
       case Created(_) => created
       case Ready(_) => ready
       case Requested => requested
  }

  /** What recovery and outcome writers write: a saved version of a known operation, with its intent kept. */
  predicate Legitimate(s: State, e: Entry) {
    e.id in s.known && e.intent == s.known[e.id] && e.revision >= 1 && !e.status.Idle?
  }

  /** The lock of an intent is free. */
  predicate LockFree(s: State, intent: Intent) {
    forall a <- s.attempts :: Named(s.attempts[a].intent) != Named(intent)
  }

  predicate Enabled(s: State, step: Step) {
    match step
    case Start(a, _, opId, intent) => a !in s.attempts && opId !in s.known && LockFree(s, intent)
    case Check(a, _) => PhaseIs(s, a, true, false, false, false, false)
    case Create(a, _) => PhaseIs(s, a, false, true, false, false, false)
    case Abandon(a, _, _) => PhaseIs(s, a, false, false, true, true, false)
    case Await(a, _, _) => PhaseIs(s, a, false, false, true, false, false)
    case Ask(a) => PhaseIs(s, a, false, false, false, true, false)
    case Settle(a) => PhaseIs(s, a, false, false, false, false, true)
    case SaveBy(_, e, _) => Legitimate(s, e)
    case RetryBy(_, e, _) => Legitimate(s, e)
    case SaveVolatileBy(_, e) => Legitimate(s, e)
    case Death(_) => true
  }

  /** The journal shows an unresolved attempt at the intent; while storage cannot be read, only the overlay does. */
  ghost predicate SeesUnresolved(s: State, tab: nat, intent: Intent, readable: bool) {
    exists e ::
      InView(if readable then s.durable else [], Overlay(s, tab), e) && Named(e.intent) == Named(intent) && OwnsIntent(e.status)
  }

  ghost function Next(s: State, step: Step): State
    requires Enabled(s, step)
  {
    match step
    case Start(a, tab, opId, intent) =>
      s.(attempts := s.attempts[a := Attempt(tab, opId, intent, Checking)], known := s.known[opId := intent])
    case Check(a, readable) =>
      if SeesUnresolved(s, s.attempts[a].tab, s.attempts[a].intent, readable) then EndAttempt(s, a)
      else SetPhase(if readable then s else s.(blind := s.blind + {s.attempts[a].opId}), a, Cleared)
    case Create(a, works) =>
      var e := NewEntry(s.attempts[a].opId, s.attempts[a].intent);
      if SaveSucceeds(s, s.attempts[a].tab, e, works)
      then SetPhase(SaveIn(s, s.attempts[a].tab, e, works), a, Created(e.(revision := 1)))
      else EndAttempt(s, a)
    case Abandon(a, error, works) =>
      EndAttempt(SaveIn(s, s.attempts[a].tab, Abandoned(s.attempts[a].phase, error), works), a)
    case Await(a, startedAt, works) =>
      var e := s.attempts[a].phase.base.(walletRequestStartedAt := Some(startedAt), status := AwaitingWallet);
      if SaveSucceeds(s, s.attempts[a].tab, e, works)
      then SetPhase(SaveIn(s, s.attempts[a].tab, e, works), a, Ready(e.(revision := e.revision + 1)))
      else EndAttempt(s, a)
    case Ask(a) => SetPhase(s, a, Requested).(asked := s.asked + [s.attempts[a].opId])
    case Settle(a) => EndAttempt(s, a)
    case SaveBy(tab, e, works) => SaveIn(s, tab, e, works)
    case RetryBy(tab, e, works) => RetryIn(s, tab, e, works)
    case SaveVolatileBy(tab, e) => SaveVolatileIn(s, tab, e)
    case Death(tab) =>
      s.(overlays := s.overlays - {tab}, bases := s.bases - {tab},
         attempts := map a <- s.attempts | s.attempts[a].tab != tab :: s.attempts[a])
  }

  /** The attempt's last saved version, as it is saved when the attempt gives up. */
  function Abandoned(phase: Phase, error: string): Entry
    requires phase.Created? || phase.Ready?
  {
    (if phase.Created? then phase.base else phase.awaiting).(status := FailedBeforeSubmit, lastError := Some(error))
  }

  // ---- the invariant ----

  /** An entry as every writer leaves it. */
  predicate Sane(s: State, e: Entry) {
    && e.id in s.known && e.intent == s.known[e.id] && e.revision >= 1 && !e.status.Idle?
    && (GivesUp(e.status) ==> e.id in s.released)
  }

  ghost predicate RecordsSane(s: State) {
    && (forall e <- s.durable :: Sane(s, e))
    && (forall tab <- s.overlays :: forall id <- s.overlays[tab] ::
          s.overlays[tab][id].id == id && Sane(s, s.overlays[tab][id]) && s.overlays[tab][id].revision >= 2)
  }

  ghost predicate AttemptSane(s: State, a: Attempt) {
    && a.opId in s.known && s.known[a.opId] == a.intent
    && (!a.phase.Requested? ==> a.opId !in s.asked)
    && (a.phase.Created? ==> a.phase.base == NewEntry(a.opId, a.intent).(revision := 1))
    && (a.phase.Ready? ==>
          && a.phase.awaiting.id == a.opId && a.phase.awaiting.intent == a.intent && a.phase.awaiting.revision == 2
          && a.opId in s.awaited && Find(s.durable, a.opId).Some?)
  }

  /** Once past a check that could read the journal, an attempt's intent has been given up by everyone who asked before. */
  ghost predicate Unopposed(s: State, a: Attempt) {
    !a.phase.Checking? && a.opId !in s.blind ==>
      forall op <- s.asked | op != a.opId && op in s.known :: Named(s.known[op]) == Named(a.intent) ==> op in s.released
  }

  ghost predicate AttemptsSane(s: State) {
    && (forall a <- s.attempts :: AttemptSane(s, s.attempts[a]) && Unopposed(s, s.attempts[a]))
    && (forall a <- s.attempts, b <- s.attempts :: Named(s.attempts[a].intent) == Named(s.attempts[b].intent) ==> a == b)
  }

  ghost predicate AskedKnown(s: State) {
    forall op <- s.asked :: op in s.known && op in s.awaited && Find(s.durable, op).Some?
  }

  /** The wallet was never asked twice by one attempt, nor by a second attempt at an intent that an earlier one
      had not given up, unless the second could not read the journal when it checked. */
  ghost predicate AskedSafely(s: State) {
    && (forall i, j :: 0 <= i < j < |s.asked| ==> s.asked[i] != s.asked[j])
    && (forall i, j | 0 <= i < j < |s.asked| && s.asked[i] in s.known && s.asked[j] in s.known && s.asked[j] !in s.blind ::
          Named(s.known[s.asked[i]]) == Named(s.known[s.asked[j]]) ==> s.asked[i] in s.released)
  }

  ghost predicate Inv(s: State) {
    RecordsSane(s) && AttemptsSane(s) && AskedKnown(s) && AskedSafely(s)
  }

  // ---- what every step keeps ----

  /** `t` has the same attempts and history as `s` and at least its records. */
  ghost predicate RecordsOn(s: State, t: State) {
    && t.attempts == s.attempts && t.known == s.known && t.asked == s.asked && t.blind == s.blind
    && s.awaited <= t.awaited && s.released <= t.released
    && forall id :: Find(s.durable, id).Some? ==> Find(t.durable, id).Some?
  }

  lemma RecordsOnKeepsInv(s: State, t: State)
    requires Inv(s) && RecordsOn(s, t) && RecordsSane(t)
    ensures Inv(t)
  {
    hide RecordsSane;
    forall a <- t.attempts ensures AttemptSane(t, t.attempts[a]) && Unopposed(t, t.attempts[a]) {
      assert AttemptSane(s, s.attempts[a]) && Unopposed(s, s.attempts[a]);
    }
  }

  lemma DurableWriteRecords(s: State, w: TransactionJournal.Write, t: State)
    requires RecordsSane(s) && Perform(s.durable, w).Success? && t == WithDurable(s, Perform(s.durable, w).value)
    requires w.entry.id in s.known && w.entry.intent == s.known[w.entry.id] && !w.entry.status.Idle?
    ensures RecordsOn(s, t) && RecordsSane(t)
    ensures w.entry.status.AwaitingWallet? ==> w.entry.id in t.awaited && Find(t.durable, w.entry.id).Some?
  {
    hide Find, Without, RevisionIn, UniqueIds;
    var stored := Perform(s.durable, w).value.stored;
    PerformedEntry(s.durable, w);
    forall id ensures Find(s.durable, id).Some? ==> Find(t.durable, id).Some? {
      WriteIsCompareAndSwap(s.durable, w, id);
    }
    WriteIsCompareAndSwap(s.durable, w, w.entry.id);
    forall e <- t.durable ensures Sane(t, e) {
      assert e in s.durable || e == stored;
    }
  }

  lemma PerformedEntry(entries: seq<Entry>, w: TransactionJournal.Write)
    requires Perform(entries, w).Success?
    ensures var stored := Perform(entries, w).value.stored;
            && stored.id == w.entry.id && stored.intent == w.entry.intent && stored.status == w.entry.status && stored.revision >= 1
            && forall e <- Perform(entries, w).value.entries :: e in entries || e == stored
  {
  }

  lemma OverlayRecords(s: State, tab: nat, e: Entry, t: State)
    requires RecordsSane(s) && t == WithOverlay(s, tab, e)
    requires e.id in s.known && e.intent == s.known[e.id] && e.revision >= 2 && !e.status.Idle?
    ensures RecordsOn(s, t) && RecordsSane(t)
  {
    hide Find;
  }

  lemma SaveRecords(s: State, tab: nat, e: Entry, works: bool)
    requires RecordsSane(s) && e.id in s.known && e.intent == s.known[e.id] && !e.status.Idle?
    ensures var t := SaveIn(s, tab, e, works);
            && RecordsOn(s, t) && RecordsSane(t)
            && (e.status.AwaitingWallet? && e.id !in Overlay(s, tab) && SaveSucceeds(s, tab, e, works) ==>
                  e.id in t.awaited && Find(t.durable, e.id).Some?)
  {
    hide Find;
    var t := SaveIn(s, tab, e, works);
    if e.id in Overlay(s, tab) {
      if e.revision == Overlay(s, tab)[e.id].revision {
        OverlayRecords(s, tab, e.(revision := e.revision + 1), t);
      }
    } else if works && DurableSave(s.durable, e).Success? {
      DurableWriteRecords(s, SaveOf(e), t);
    }
  }

  lemma RetryRecords(s: State, tab: nat, e: Entry, works: bool)
    requires RecordsSane(s) && Legitimate(s, e)
    ensures RecordsOn(s, RetryIn(s, tab, e, works)) && RecordsSane(RetryIn(s, tab, e, works))
  {
    hide Find;
    if e.id !in Overlay(s, tab) {
      SaveRecords(s, tab, e, works);
    } else if RetryIn(s, tab, e, works) != s {
      var w := RetryOf(e, BaseOf(s, tab, e.id));
      DurableWriteRecords(s, w, WithDurable(s, Perform(s.durable, w).value));
    }
  }

  lemma SaveVolatileRecords(s: State, tab: nat, e: Entry)
    requires RecordsSane(s) && Legitimate(s, e)
    ensures RecordsOn(s, SaveVolatileIn(s, tab, e)) && RecordsSane(SaveVolatileIn(s, tab, e))
  {
    hide Find;
    var based := if tab in s.bases && e.id in s.bases[tab] then s
                 else s.(bases := s.bases[tab := (if tab in s.bases then s.bases[tab] else map[])[e.id := e.revision]]);
    OverlayRecords(based, tab, e.(revision := e.revision + 1), SaveVolatileIn(s, tab, e));
  }

  lemma EndKeepsInv(s: State, a: nat)
    requires Inv(s)
    ensures Inv(EndAttempt(s, a))
  {
    var t := EndAttempt(s, a);
    forall b <- t.attempts ensures AttemptSane(t, t.attempts[b]) && Unopposed(t, t.attempts[b]) {
      assert AttemptSane(s, s.attempts[b]) && Unopposed(s, s.attempts[b]);
    }
    assert forall e :: Sane(s, e) ==> Sane(t, e);
  }

  lemma PhaseKeepsInv(s: State, a: nat, phase: Phase)
    requires Inv(s) && a in s.attempts
    requires AttemptSane(s, s.attempts[a].(phase := phase)) && Unopposed(s, s.attempts[a].(phase := phase))
    ensures Inv(SetPhase(s, a, phase))
  {
    var t := SetPhase(s, a, phase);
    forall b <- t.attempts ensures AttemptSane(t, t.attempts[b]) && Unopposed(t, t.attempts[b]) {
      if b != a {
        assert AttemptSane(s, s.attempts[b]) && Unopposed(s, s.attempts[b]);
      }
    }
    assert forall e :: Sane(s, e) ==> Sane(t, e);
  }

  lemma StartKeepsInv(s: State, step: Step)
    requires Inv(s) && step.Start? && Enabled(s, step)
    ensures Inv(Next(s, step))
  {
    hide Find, Named;
    var t := Next(s, step);
    forall e | Sane(s, e) ensures Sane(t, e) {
    }
    forall b <- t.attempts ensures AttemptSane(t, t.attempts[b]) && Unopposed(t, t.attempts[b]) {
      if b != step.a {
        assert AttemptSane(s, s.attempts[b]) && Unopposed(s, s.attempts[b]);
      } else {
        assert step.opId !in s.asked;
      }
    }
    forall i, j | 0 <= i < j < |t.asked|
      ensures Named(t.known[t.asked[i]]) == Named(t.known[t.asked[j]]) && t.asked[j] !in t.blind ==> t.asked[i] in t.released
    {
      assert t.asked[i] in s.asked && t.asked[j] in s.asked;
    }
  }

  /** A passed check of a readable journal means that everyone who asked for this intent has given it up. */
  lemma ClearedIsUnopposed(s: State, a: nat)
    requires Inv(s) && a in s.attempts && !SeesUnresolved(s, s.attempts[a].tab, s.attempts[a].intent, true)
    ensures Unopposed(s, s.attempts[a].(phase := Cleared))
  {
    var tab, intent := s.attempts[a].tab, s.attempts[a].intent;
    forall op <- s.asked | op in s.known && Named(s.known[op]) == Named(intent) ensures op in s.released {
      var shown := if op in Overlay(s, tab) then Overlay(s, tab)[op] else Find(s.durable, op).value;
      assert InView(s.durable, Overlay(s, tab), shown) && Sane(s, shown);
      OwnsOrGivesUp(shown.status);
    }
  }

  lemma CheckKeepsInv(s: State, step: Step)
    requires Inv(s) && step.Check? && Enabled(s, step)
    ensures Inv(Next(s, step))
  {
    hide SeesUnresolved;
    var a := step.a;
    if SeesUnresolved(s, s.attempts[a].tab, s.attempts[a].intent, step.readable) {
      EndKeepsInv(s, a);
    } else if step.readable {
      ClearedIsUnopposed(s, a);
      assert AttemptSane(s, s.attempts[a].(phase := Cleared));
      PhaseKeepsInv(s, a, Cleared);
    } else {
      var t := s.(blind := s.blind + {s.attempts[a].opId});
      BlindKeepsInv(s, s.attempts[a].opId);
      assert AttemptSane(t, t.attempts[a]);
      PhaseKeepsInv(t, a, Cleared);
    }
  }

  lemma BlindKeepsInv(s: State, op: string)
    requires Inv(s)
    ensures Inv(s.(blind := s.blind + {op}))
  {
    hide Find;
    var t := s.(blind := s.blind + {op});
    assert forall e :: Sane(s, e) ==> Sane(t, e);
    forall b <- t.attempts ensures AttemptSane(t, t.attempts[b]) && Unopposed(t, t.attempts[b]) {
      assert AttemptSane(s, s.attempts[b]) && Unopposed(s, s.attempts[b]);
    }
  }

  /** A save of an attempt's own entry, and the phase it leads to. */
  lemma OwnSaveKeepsInv(s: State, a: nat, e: Entry, works: bool, phase: Phase)
    requires Inv(s) && a in s.attempts && e.id == s.attempts[a].opId && e.intent == s.attempts[a].intent && !e.status.Idle?
    requires !s.attempts[a].phase.Checking? && !s.attempts[a].phase.Requested? && SaveSucceeds(s, s.attempts[a].tab, e, works)
    requires phase == Created(NewEntry(e.id, e.intent).(revision := 1))
             || (e.status.AwaitingWallet? && e.id !in Overlay(s, s.attempts[a].tab) && phase.Ready?
                 && phase.awaiting.id == e.id && phase.awaiting.intent == e.intent && phase.awaiting.revision == 2)
    ensures Inv(SetPhase(SaveIn(s, s.attempts[a].tab, e, works), a, phase))
  {
    hide SaveIn, SaveSucceeds, Find, RecordsSane, AskedSafely, AskedKnown;
    assert AttemptSane(s, s.attempts[a]) && Unopposed(s, s.attempts[a]);
    SaveRecords(s, s.attempts[a].tab, e, works);
    var t := SaveIn(s, s.attempts[a].tab, e, works);
    RecordsOnKeepsInv(s, t);
    assert AttemptSane(t, t.attempts[a].(phase := phase)) && Unopposed(t, t.attempts[a].(phase := phase));
    PhaseKeepsInv(t, a, phase);
  }

  lemma CreateKeepsInv(s: State, step: Step)
    requires Inv(s) && step.Create? && Enabled(s, step)
    ensures Inv(Next(s, step))
  {
    hide SaveIn, SaveSucceeds;
    var a := step.a;
    assert AttemptSane(s, s.attempts[a]);
    var e := NewEntry(s.attempts[a].opId, s.attempts[a].intent);
    if SaveSucceeds(s, s.attempts[a].tab, e, step.works) {
      OwnSaveKeepsInv(s, a, e, step.works, Created(e.(revision := 1)));
    } else {
      EndKeepsInv(s, a);
    }
  }

  /** An entry that is volatile in the attempt's tab is at revision 2 or above, so the save at revision 1 that
      would let the wallet be asked fails. */
  lemma AwaitIsDurable(s: State, a: nat, e: Entry, works: bool)
    requires Inv(s) && a in s.attempts && e.revision == 1 && SaveSucceeds(s, s.attempts[a].tab, e, works)
    ensures e.id !in Overlay(s, s.attempts[a].tab)
  {
  }

  lemma AwaitKeepsInv(s: State, step: Step)
    requires Inv(s) && step.Await? && Enabled(s, step)
    ensures Inv(Next(s, step))
  {
    hide SaveIn, SaveSucceeds;
    var a := step.a;
    assert AttemptSane(s, s.attempts[a]);
    var e := s.attempts[a].phase.base.(walletRequestStartedAt := Some(step.startedAt), status := AwaitingWallet);
    if SaveSucceeds(s, s.attempts[a].tab, e, step.works) {
      AwaitIsDurable(s, a, e, step.works);
      OwnSaveKeepsInv(s, a, e, step.works, Ready(e.(revision := e.revision + 1)));
    } else {
      EndKeepsInv(s, a);
    }
  }

  lemma AbandonKeepsInv(s: State, step: Step)
    requires Inv(s) && step.Abandon? && Enabled(s, step)
    ensures Inv(Next(s, step))
  {
    hide SaveIn;
    var a := step.a;
    assert AttemptSane(s, s.attempts[a]);
    var e := Abandoned(s.attempts[a].phase, step.error);
    SaveRecords(s, s.attempts[a].tab, e, step.works);
    RecordsOnKeepsInv(s, SaveIn(s, s.attempts[a].tab, e, step.works));
    EndKeepsInv(SaveIn(s, s.attempts[a].tab, e, step.works), a);
  }

  /** The wallet is asked only for an attempt that is durably recorded and was AWAITING_WALLET, only once for it,
      and, if the attempt could read the journal when it checked, only after every earlier request for its intent
      was given up. */
  lemma AskIsSafe(s: State, step: Step)
    requires Inv(s) && step.Ask? && Enabled(s, step)
    ensures var op, intent := s.attempts[step.a].opId, s.attempts[step.a].intent;
            && op in s.awaited && Find(s.durable, op).Some? && op !in s.asked
            && (forall earlier <- s.asked :: earlier in s.known)
            && (op !in s.blind ==>
                  forall earlier <- s.asked :: Named(s.known[earlier]) == Named(intent) ==> earlier in s.released)
  {
    assert AttemptSane(s, s.attempts[step.a]) && Unopposed(s, s.attempts[step.a]);
  }

  lemma AskingIsKnown(s: State, a: nat)
    requires AttemptsSane(s) && a in s.attempts
    ensures s.attempts[a].opId in s.known && s.known[s.attempts[a].opId] == s.attempts[a].intent
  {
    assert AttemptSane(s, s.attempts[a]);
  }

  lemma AskKeepsAttempts(s: State, step: Step)
    requires AttemptsSane(s) && step.Ask? && Enabled(s, step)
    ensures AttemptsSane(Next(s, step))
  {
    hide AttemptSane, Unopposed;
    var t := Next(s, step);
    forall b <- t.attempts ensures AttemptSane(t, t.attempts[b]) && Unopposed(t, t.attempts[b]) {
      AskKeepsAttempt(s, step.a, b);
    }
  }

  lemma AskKeepsAttempt(s: State, a: nat, b: nat)
    requires a in s.attempts && b in s.attempts && s.attempts[a].phase.Ready?
    requires AttemptSane(s, s.attempts[a]) && AttemptSane(s, s.attempts[b]) && Unopposed(s, s.attempts[a]) && Unopposed(s, s.attempts[b])
    requires Named(s.attempts[a].intent) == Named(s.attempts[b].intent) ==> a == b
    ensures var t := Next(s, Ask(a)); AttemptSane(t, t.attempts[b]) && Unopposed(t, t.attempts[b])
  {
    hide Find;
  }

  lemma AskKeepsInv(s: State, step: Step)
    requires Inv(s) && step.Ask? && Enabled(s, step)
    ensures Inv(Next(s, step))
  {
    hide Find, AttemptsSane;
    AskIsSafe(s, step);
    AskKeepsAttempts(s, step);
    var a, t := step.a, Next(s, step);
    var op := s.attempts[a].opId;
    AskingIsKnown(s, a);
    assert forall e :: Sane(s, e) ==> Sane(t, e);
    forall i, j | 0 <= i < j < |t.asked|
      ensures t.asked[i] != t.asked[j]
      ensures Named(t.known[t.asked[i]]) == Named(t.known[t.asked[j]]) && t.asked[j] !in t.blind ==> t.asked[i] in t.released
    {
      assert t.asked[i] in s.asked;
      if j == |s.asked| {
        assert t.asked[j] == op;
      }
    }
  }

  lemma DeathKeepsInv(s: State, step: Step)
    requires Inv(s) && step.Death?
    ensures Inv(Next(s, step))
  {
    var t := Next(s, step);
    assert forall e :: Sane(s, e) ==> Sane(t, e);
    forall b <- t.attempts ensures AttemptSane(t, t.attempts[b]) && Unopposed(t, t.attempts[b]) {
      assert AttemptSane(s, s.attempts[b]) && Unopposed(s, s.attempts[b]);
    }
  }

  lemma WriterKeepsInv(s: State, step: Step)
    requires Inv(s) && (step.SaveBy? || step.RetryBy? || step.SaveVolatileBy?) && Enabled(s, step)
    ensures Inv(Next(s, step))
  {
    hide SaveIn, RetryIn, SaveVolatileIn, RecordsSane, AttemptsSane, AskedSafely, AskedKnown, RecordsOn;
    match step {
      case SaveBy(tab, e, works) => SaveRecords(s, tab, e, works);
      case RetryBy(tab, e, works) => RetryRecords(s, tab, e, works);
      case SaveVolatileBy(tab, e) => SaveVolatileRecords(s, tab, e);
    }
    RecordsOnKeepsInv(s, Next(s, step));
  }

  lemma StepKeepsInv(s: State, step: Step)
    requires Inv(s) && Enabled(s, step)
    ensures Inv(Next(s, step))
  {
    hide Inv, Next, Enabled;
    match step
    case Start(_, _, _, _) => StartKeepsInv(s, step);
    case Check(_, _) => CheckKeepsInv(s, step);
    case Create(_, _) => CreateKeepsInv(s, step);
    case Abandon(_, _, _) => AbandonKeepsInv(s, step);
    case Await(_, _, _) => AwaitKeepsInv(s, step);
    case Ask(_) => AskKeepsInv(s, step);
    case Settle(a) => SettleKeepsInv(s, step);
    case Death(_) => DeathKeepsInv(s, step);
    case _ => WriterKeepsInv(s, step);
  }

  lemma SettleKeepsInv(s: State, step: Step)
    requires Inv(s) && step.Settle? && Enabled(s, step)
    ensures Inv(Next(s, step))
  {
    EndKeepsInv(s, step.a);
  }

  // ---- runs ----

  ghost predicate IsPath(states: seq<State>, steps: seq<Step>) {
    && |states| == |steps| + 1
    && forall i :: 0 <= i < |steps| ==> Enabled(states[i], steps[i]) && states[i + 1] == Next(states[i], steps[i])
  }

  ghost predicate IsRun(states: seq<State>, steps: seq<Step>) {
    IsPath(states, steps) && states[0] == INITIAL
  }

  lemma {:induction false} RunKeepsInv(states: seq<State>, steps: seq<Step>, n: nat)
    requires IsRun(states, steps) && n <= |steps|
    ensures Inv(states[n])
  {
    hide Inv, Next, Enabled;
    if n == 0 {
      InitialInv();
    } else {
      RunKeepsInv(states, steps, n - 1);
      StepKeepsInv(states[n - 1], steps[n - 1]);
    }
  }

  lemma InitialInv()
    ensures Inv(INITIAL)
  {
  }

  /** Submission safety: in every run, two wallet requests for one intent come from different attempts, and the
      earlier attempt had been recorded as given up before the later request was made, if the later attempt could
      read the journal when it checked. */
  lemma SubmissionIsSafe(states: seq<State>, steps: seq<Step>, n: nat)
    requires IsRun(states, steps) && n < |steps| && steps[n].Ask?
    ensures steps[n].a in states[n].attempts
    ensures var s, attempt := states[n], states[n].attempts[steps[n].a];
            && states[n + 1].asked == s.asked + [attempt.opId]
            && attempt.opId in s.awaited && Find(s.durable, attempt.opId).Some? && attempt.opId !in s.asked
            && (forall earlier <- s.asked :: earlier in s.known)
            && (attempt.opId !in s.blind ==>
                  forall earlier <- s.asked :: Named(s.known[earlier]) == Named(attempt.intent) ==> earlier in s.released)
  {
    RunKeepsInv(states, steps, n);
    AskIsSafe(states[n], steps[n]);
  }

  // ---- why the check has to be readable ----

  /** An undisturbed attempt up to its wallet request, after which its outcome is never recorded. */
  function Undisturbed(a: nat, tab: nat, op: string, intent: Intent, readable: bool): (steps: seq<Step>)
    ensures |steps| == 6
  {
    [Start(a, tab, op, intent), Check(a, readable), Create(a, true), Await(a, "", true), Ask(a), Settle(a)]
  }

  /** A new attempt meets nothing of its own, and its check passes. */
  ghost predicate CanAsk(s: State, a: nat, tab: nat, op: string, intent: Intent, readable: bool) {
    && a !in s.attempts && op !in s.known && LockFree(s, intent) && tab !in s.overlays
    && RevisionIn(s.durable, op) == 0 && !SeesUnresolved(s, tab, intent, readable)
  }

  lemma UndisturbedAsks(s: State, a: nat, tab: nat, op: string, intent: Intent, readable: bool) returns (states: seq<State>)
    requires CanAsk(s, a, tab, op, intent, readable)
    ensures IsPath(states, Undisturbed(a, tab, op, intent, readable)) && states[0] == s
    ensures var t := states[6];
            && t.asked == s.asked + [op] && t.known == s.known[op := intent] && t.attempts == s.attempts
            && t.overlays == s.overlays && t.released == s.released && OthersKept(s, t, op)
  {
    hide Find, RevisionIn, SeesUnresolved, LockFree, Enabled, Next, IsPath;
    assert a !in s.attempts && RevisionIn(s.durable, op) == 0;
    var s1, s2 := OpensAttempt(s, a, tab, op, intent, readable);
    hide CanAsk;
    var s3 := CreatesAttempt(s2, a, tab, op, intent);
    var s4 := AwaitsWallet(s3, a, tab, op, intent);
    hide OthersKept;
    var s5, s6 := AsksAndEnds(s4, a, op);
    assert s6.attempts == s.attempts;
    OthersKeptOn(s, s3, s4, op);
    OthersKeptOn(s, s4, s6, op);
    states := [s, s1, s2, s3, s4, s5, s6];
    PathOfSix(states, Undisturbed(a, tab, op, intent, readable));
  }

  ghost predicate OthersKept(s: State, t: State, op: string) {
    forall id :: id != op ==> Find(t.durable, id) == Find(s.durable, id)
  }

  lemma OthersKeptOn(s: State, t: State, u: State, op: string)
    requires OthersKept(s, t, op) && OthersKept(t, u, op)
    ensures OthersKept(s, u, op)
  {
  }

  lemma PathOfSix(states: seq<State>, steps: seq<Step>)
    requires |states| == 7 && |steps| == 6
    requires Enabled(states[0], steps[0]) && states[1] == Next(states[0], steps[0])
    requires Enabled(states[1], steps[1]) && states[2] == Next(states[1], steps[1])
    requires Enabled(states[2], steps[2]) && states[3] == Next(states[2], steps[2])
    requires Enabled(states[3], steps[3]) && states[4] == Next(states[3], steps[3])
    requires Enabled(states[4], steps[4]) && states[5] == Next(states[4], steps[4])
    requires Enabled(states[5], steps[5]) && states[6] == Next(states[5], steps[5])
    ensures IsPath(states, steps)
  {
    hide Enabled, Next;
  }

  lemma OpensAttempt(s: State, a: nat, tab: nat, op: string, intent: Intent, readable: bool) returns (s1: State, s2: State)
    requires CanAsk(s, a, tab, op, intent, readable)
    ensures Enabled(s, Start(a, tab, op, intent)) && s1 == Next(s, Start(a, tab, op, intent))
    ensures Enabled(s1, Check(a, readable)) && s2 == Next(s1, Check(a, readable))
    ensures s2.attempts == s.attempts[a := Attempt(tab, op, intent, Cleared)] && s2.known == s.known[op := intent]
    ensures s2.durable == s.durable && s2.overlays == s.overlays && s2.asked == s.asked && s2.released == s.released
  {
    hide Find, RevisionIn;
    s1 := Next(s, Start(a, tab, op, intent));
    assert SeesUnresolved(s1, tab, intent, readable) == SeesUnresolved(s, tab, intent, readable);
    s2 := Next(s1, Check(a, readable));
  }

  /** A save nothing stands in the way of. */
  lemma FreshSave(s: State, tab: nat, e: Entry)
    requires tab !in s.overlays && RevisionIn(s.durable, e.id) == e.revision && !GivesUp(e.status)
    ensures SaveSucceeds(s, tab, e, true)
    ensures var t := SaveIn(s, tab, e, true);
            && t == s.(durable := t.durable, awaited := t.awaited)
            && RevisionIn(t.durable, e.id) == e.revision + 1 && OthersKept(s, t, e.id)
  {
    hide Find, Replaced, Named;
    var stored := e.(revision := e.revision + 1);
    ReplacedIsOneChange(s.durable, stored, e.id);
    forall id | id != e.id ensures Find(Replaced(s.durable, stored), id) == Find(s.durable, id) {
      ReplacedIsOneChange(s.durable, stored, id);
    }
  }

  lemma CreatesAttempt(s: State, a: nat, tab: nat, op: string, intent: Intent) returns (t: State)
    requires a in s.attempts && s.attempts[a] == Attempt(tab, op, intent, Cleared)
    requires tab !in s.overlays && RevisionIn(s.durable, op) == 0
    ensures Enabled(s, Create(a, true)) && t == Next(s, Create(a, true))
    ensures t.attempts == s.attempts[a := Attempt(tab, op, intent, Created(NewEntry(op, intent).(revision := 1)))]
    ensures t == s.(durable := t.durable, awaited := t.awaited, attempts := t.attempts)
    ensures RevisionIn(t.durable, op) == 1 && OthersKept(s, t, op)
  {
    hide Find, RevisionIn, SaveIn, SaveSucceeds, OthersKept;
    FreshSave(s, tab, NewEntry(op, intent));
    t := Next(s, Create(a, true));
    SameDurable(s, SaveIn(s, tab, NewEntry(op, intent), true), t, op);
  }

  lemma AwaitsWallet(s: State, a: nat, tab: nat, op: string, intent: Intent) returns (t: State)
    requires a in s.attempts && s.attempts[a] == Attempt(tab, op, intent, Created(NewEntry(op, intent).(revision := 1)))
    requires tab !in s.overlays && RevisionIn(s.durable, op) == 1
    ensures Enabled(s, Await(a, "", true)) && t == Next(s, Await(a, "", true))
    ensures a in t.attempts && t.attempts[a].opId == op && t.attempts[a].phase.Ready? && t.attempts == s.attempts[a := t.attempts[a]]
    ensures t == s.(durable := t.durable, awaited := t.awaited, attempts := t.attempts)
    ensures OthersKept(s, t, op)
  {
    hide Find, RevisionIn, SaveIn, SaveSucceeds, OthersKept;
    var e := NewEntry(op, intent).(revision := 1, walletRequestStartedAt := Some(""), status := AwaitingWallet);
    FreshSave(s, tab, e);
    t := Next(s, Await(a, "", true));
    SameDurable(s, SaveIn(s, tab, e, true), t, op);
  }

  lemma SameDurable(s: State, t: State, u: State, op: string)
    requires OthersKept(s, t, op) && u.durable == t.durable
    ensures OthersKept(s, u, op)
  {
  }

  lemma AsksAndEnds(s: State, a: nat, op: string) returns (s5: State, s6: State)
    requires a in s.attempts && s.attempts[a].opId == op && s.attempts[a].phase.Ready?
    ensures Enabled(s, Ask(a)) && s5 == Next(s, Ask(a))
    ensures Enabled(s5, Settle(a)) && s6 == Next(s5, Settle(a))
    ensures s6 == s.(attempts := s6.attempts, asked := s.asked + [op]) && s6.attempts == s.attempts - {a}
    ensures OthersKept(s, s6, op)
  {
    s5 := Next(s, Ask(a));
    s6 := Next(s5, Settle(a));
  }

  /** Nobody knows the operation, so nothing of it is stored. */
  lemma UnknownIsUnsaved(s: State, op: string)
    requires RecordsSane(s) && op !in s.known
    ensures RevisionIn(s.durable, op) == 0
  {
  }

  /** A blind check repeats whatever was asked before: from any state of any run in which an asker of the intent was not
      given up and the intent's lock is free, a new attempt in a new tab that cannot read the journal when it checks, and
      can write it a moment later, asks the wallet again. */
  lemma BlindCheckRepeats(states: seq<State>, steps: seq<Step>, earlier: string, a: nat, tab: nat, op: string, intent: Intent)
    returns (states': seq<State>)
    requires IsRun(states, steps)
    requires var s := states[|steps|];
             && earlier in s.asked && earlier !in s.released && earlier in s.known && Named(s.known[earlier]) == Named(intent)
             && LockFree(s, intent) && a !in s.attempts && op !in s.known && tab !in s.overlays
    ensures IsRun(states', steps + Undisturbed(a, tab, op, intent, false)) && states <= states'
    ensures var s, t := states[|steps|], states'[|steps| + 6];
            && t.asked == s.asked + [op] && earlier !in t.released
            && earlier in t.known && op in t.known && Named(t.known[earlier]) == Named(t.known[op])
            && t.known == s.known[op := intent] && t.released == s.released
  {
    var s := states[|steps|];
    RunKeepsInv(states, steps, |steps|);
    UnknownIsUnsaved(s, op);
    assert CanAsk(s, a, tab, op, intent, false);
    hide Inv;
    var more := UndisturbedAsks(s, a, tab, op, intent, false);
    states' := states + more[1..];
    PathsJoin(states, steps, more, Undisturbed(a, tab, op, intent, false));
  }

  lemma PathsJoin(a: seq<State>, aSteps: seq<Step>, b: seq<State>, bSteps: seq<Step>)
    requires IsPath(a, aSteps) && IsPath(b, bSteps) && b[0] == a[|aSteps|]
    ensures IsPath(a + b[1..], aSteps + bSteps)
  {
    hide Enabled, Next;
    var n, states, steps := |aSteps|, a + b[1..], aSteps + bSteps;
    forall i | 0 <= i < |steps| ensures Enabled(states[i], steps[i]) && states[i + 1] == Next(states[i], steps[i]) {
      if i >= n {
        assert states[i] == b[i - n] && states[i + 1] == b[i + 1 - n] && steps[i] == bSteps[i - n];
      }
    }
  }

  /** So the condition of SubmissionIsSafe is needed: there is a run that asks twice for one intent. */
  lemma BlindCheckCanRepeat(intent: Intent) returns (states: seq<State>, steps: seq<Step>)
    ensures IsRun(states, steps)
    ensures var s := states[|steps|];
            && s.asked == ["first", "second"] && s.known == map["first" := intent, "second" := intent]
            && s.released == {}
  {
    assert CanAsk(INITIAL, 0, 0, "first", intent, true);
    var first := UndisturbedAsks(INITIAL, 0, 0, "first", intent, true);
    steps := Undisturbed(0, 0, "first", intent, true);
    states := BlindCheckRepeats(first, steps, "first", 1, 1, "second", intent);
    steps := steps + Undisturbed(1, 1, "second", intent, false);
  }

  // ---- what `released` means ----

  ghost predicate RecordedGivenUp(s: State, op: string) {
    || (exists e <- s.durable :: e.id == op && GivesUp(e.status))
    || (exists tab <- s.overlays :: op in s.overlays[tab] && GivesUp(s.overlays[tab][op].status))
  }

  lemma DurableGivenUp(s: State, w: TransactionJournal.Write, op: string)
    requires Perform(s.durable, w).Success?
    ensures var t := WithDurable(s, Perform(s.durable, w).value);
            op in t.released && op !in s.released ==> exists e <- t.durable :: e.id == op && GivesUp(e.status)
  {
    assert Perform(s.durable, w).value.stored in Perform(s.durable, w).value.entries;
  }

  lemma OverlayGivenUp(s: State, tab: nat, e: Entry, op: string)
    ensures var t := WithOverlay(s, tab, e);
            op in t.released && op !in s.released ==> RecordedGivenUp(t, op)
  {
    var t := WithOverlay(s, tab, e);
    assert tab in t.overlays && e.id in t.overlays[tab] && t.overlays[tab][e.id] == e;
  }

  lemma SaveGivenUp(s: State, tab: nat, e: Entry, works: bool, op: string)
    ensures var t := SaveIn(s, tab, e, works);
            op in t.released && op !in s.released ==> RecordedGivenUp(t, op)
  {
    hide WithDurable, WithOverlay, DurableSave;
    if e.id in Overlay(s, tab) {
      OverlayGivenUp(s, tab, e.(revision := e.revision + 1), op);
    } else if works && DurableSave(s.durable, e).Success? {
      assert Perform(s.durable, SaveOf(e)) == DurableSave(s.durable, e);
      DurableGivenUp(s, SaveOf(e), op);
    }
  }

  lemma RetryGivenUp(s: State, tab: nat, e: Entry, works: bool, op: string)
    ensures var t := RetryIn(s, tab, e, works);
            op in t.released && op !in s.released ==> RecordedGivenUp(t, op)
  {
    hide SaveIn, DurableRetry;
    SaveGivenUp(s, tab, e, works, op);
    var w := RetryOf(e, BaseOf(s, tab, e.id));
    assert Perform(s.durable, w) == DurableRetry(s.durable, e, BaseOf(s, tab, e.id));
    if Perform(s.durable, w).Success? {
      DurableGivenUp(s, w, op);
    }
  }

  lemma SaveVolatileGivenUp(s: State, tab: nat, e: Entry, op: string)
    ensures var t := SaveVolatileIn(s, tab, e);
            op in t.released && op !in s.released ==> RecordedGivenUp(t, op)
  {
    hide WithOverlay;
    var based := if tab in s.bases && e.id in s.bases[tab] then s
                 else s.(bases := s.bases[tab := (if tab in s.bases then s.bases[tab] else map[])[e.id := e.revision]]);
    OverlayGivenUp(based, tab, e.(revision := e.revision + 1), op);
  }

  /** Nothing counts as given up that was not recorded so, durably or in some tab's overlay. */
  lemma GivenUpWasRecorded(s: State, step: Step, op: string)
    requires Enabled(s, step) && op !in s.released && op in Next(s, step).released
    ensures RecordedGivenUp(Next(s, step), op)
  {
    hide SaveIn, RetryIn, SaveVolatileIn, SaveSucceeds, SeesUnresolved;
    match step {
      case Create(a, works) =>
        SaveGivenUp(s, s.attempts[a].tab, NewEntry(s.attempts[a].opId, s.attempts[a].intent), works, op);
      case Abandon(a, error, works) =>
        SaveGivenUp(s, s.attempts[a].tab, Abandoned(s.attempts[a].phase, error), works, op);
      case Await(a, startedAt, works) =>
        SaveGivenUp(s, s.attempts[a].tab,
                    s.attempts[a].phase.base.(walletRequestStartedAt := Some(startedAt), status := AwaitingWallet), works, op);
      case SaveBy(tab, e, works) => SaveGivenUp(s, tab, e, works, op);
      case RetryBy(tab, e, works) => RetryGivenUp(s, tab, e, works, op);
      case SaveVolatileBy(tab, e) => SaveVolatileGivenUp(s, tab, e, op);
      case _ =>
    }
  }
}
