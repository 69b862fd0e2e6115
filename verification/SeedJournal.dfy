/** ChainSeedJournal: at-most-once submission of seed transactions over process runs that may fail to save or die. */
module SeedJournal {
  import opened Wrappers
  import opened Domain

  datatype StepStatus = Prepared | Submitted | Verified | Unknown

  datatype TxOutcome = Succeeded | Reverted

  datatype Receipt = Receipt(transactionHash: Hash, blockNumber: nat, blockHash: Hash, contractAddress: Option<Address>, outcome: TxOutcome)

  datatype FailureCategory = SubmitOutcomeUnknown | PostSubmitPersistenceFailure | PreparedWithoutHash | ReceiptChanged

  datatype Step = Step(intent: string, status: StepStatus, transactionHash: Option<Hash>, receipt: Option<Receipt>,
                       failure: Option<FailureCategory>)

  datatype Identity = Identity(environmentId: string, chainId: nat, account: Address)

  datatype Data = Data(identity: Identity, deploymentId: Hash, steps: map<string, Step>)

  datatype SeedError =
    | SaveFailed
    | IdentityMismatch
    | IntentMismatch
    | Ambiguous
    | PostSubmitPersistenceRecovered
    | PostSubmitPersistenceFailed
    | JournalInvalid
    | ReceiptUnavailable
    | ReceiptHasChanged
    | TransactionReverted

  datatype Exit<T> = Returned(value: T) | Threw(error: SeedError) | Died

  /** How one save ends: the rename is done or not, and the process survives or not. */
  datatype Fate = Saves | Fails | DiesBefore | DiesAfter

  /** What a foreign call gives: a value, an error, or the death of the process. */
  datatype Answer<T> = Gives(value: T) | Throws | Kills

  /** The fields of a receipt that must not change; the transaction hash is not compared. */
  predicate SameReceipt(a: Receipt, b: Receipt) {
    a.blockNumber == b.blockNumber && a.blockHash == b.blockHash && a.outcome == b.outcome && a.contractAddress == b.contractAddress
  }

  /** What never changes in a step: its intent, a known hash, a known receipt, and UNKNOWN. */
  predicate Follows(a: Step, b: Step) {
    && b.intent == a.intent
    && (a.status.Unknown? ==> b.status.Unknown?)
    && (a.transactionHash.Some? ==> b.transactionHash == a.transactionHash)
    && (a.receipt.Some? ==> b.receipt == a.receipt)
  }

  ghost predicate DataFollows(a: Data, b: Data) {
    && b.identity == a.identity && b.deploymentId == a.deploymentId
    && forall id <- a.steps :: id in b.steps && Follows(a.steps[id], b.steps[id])
  }

  ghost predicate FileFollows(a: Option<Data>, b: Option<Data>) {
    a.Some? ==> b.Some? && DataFollows(a.value, b.value)
  }

  lemma FollowsOn(a: Option<Data>, b: Option<Data>, c: Option<Data>)
    requires FileFollows(a, b) && FileFollows(b, c)
    ensures FileFollows(a, c)
  {
  }

  predicate Recorded(file: Option<Data>, id: string) {
    file.Some? && id in file.value.steps
  }

  /** The journal file and the world around it. `submitted` counts what was handed to the chain. */
  class World {
    var file: Option<Data>
    var clock: nat
    ghost var submitted: multiset<string>
    const fateAt: nat -> Fate
    const submitAt: nat -> Answer<Hash>
    const receiptAt: (nat, Hash) -> Answer<Receipt>
    ghost const due: Receipt

    /** Nothing was submitted twice, and whatever was submitted is in the file. */
    ghost predicate Valid()
      reads this
    {
      forall id :: submitted[id] <= 1 && (submitted[id] == 1 ==> Recorded(file, id))
    }

    constructor (fateAt: nat -> Fate, submitAt: nat -> Answer<Hash>, receiptAt: (nat, Hash) -> Answer<Receipt>,
                 ghost due: Receipt)
      ensures Valid() && file == None && submitted == multiset{}
      ensures this.fateAt == fateAt && this.submitAt == submitAt && this.receiptAt == receiptAt && this.due == due
    {
      file, clock, submitted := None, 0, multiset{};
      this.fateAt, this.submitAt, this.receiptAt, this.due := fateAt, submitAt, receiptAt, due;
    }

    ghost predicate CooperativeAt(t: nat) {
      fateAt(t).Saves? && submitAt(t).Gives? && forall hash :: receiptAt(t, hash) == Gives(due)
    }

    /** From now on every save succeeds, every submission gives a hash, and every receipt is the one due. */
    ghost predicate Cooperative()
      reads this`clock
    {
      forall t :: t >= clock ==> CooperativeAt(t)
    }

    /** The submit callback, for a step that is in the file and was never submitted. */
    method Submit(id: string) returns (r: Answer<Hash>)
      requires Valid() && Recorded(file, id) && submitted[id] == 0
      modifies this`clock, this`submitted
      ensures old(Cooperative()) ==> Cooperative() && r.Gives?
      ensures Valid() && submitted == old(submitted)[id := 1]
    {
      submitted := submitted[id := submitted[id] + 1];
      assert Cooperative() ==> CooperativeAt(clock);
      r := submitAt(clock);
      clock := clock + 1;
    }

    method WaitForReceipt(hash: Hash) returns (r: Answer<Receipt>)
      modifies this`clock
      ensures old(Cooperative()) ==> Cooperative() && r == Gives(due)
    {
      assert Cooperative() ==> CooperativeAt(clock);
      r := receiptAt(clock, hash);
      clock := clock + 1;
    }
  }

  /** Nothing recorded stands in the way of this receipt: the step is new, or has a hash and no other receipt. */
  predicate StillOpen(data: Data, id: string, intent: string, due: Receipt) {
    id in data.steps ==>
      var step := data.steps[id];
      && step.intent == intent && (step.status.Submitted? || step.status.Verified?) && step.transactionHash.Some?
      && (step.receipt.Some? ==> SameReceipt(step.receipt.value, due))
  }

  class ChainSeedJournal {
    const world: World
    var data: Data

    /** Memory is ahead of the file, never against it. */
    ghost predicate Valid()
      reads this, world
    {
      world.Valid() && FileFollows(world.file, Some(data))
    }

    constructor (world: World, data: Data)
      ensures this.world == world && this.data == data
    {
      this.world, this.data := world, data;
    }

    /** Writes a temporary file and renames it over the journal. */
    method Save() returns (exit: Exit<()>)
      requires Valid()
      modifies world`file, world`clock
      ensures Valid() && FileFollows(old(world.file), world.file)
      ensures world.file == Some(data) || world.file == old(world.file)
      ensures exit.Returned? ==> world.file == Some(data)
      ensures exit.Threw? ==> exit.error == SaveFailed && world.file == old(world.file)
      ensures old(world.Cooperative()) ==> world.Cooperative() && exit.Returned?
    {
      assert world.Cooperative() ==> world.CooperativeAt(world.clock);
      var fate := world.fateAt(world.clock);
      world.clock := world.clock + 1;
      if fate.Saves? || fate.DiesAfter? {
        world.file := Some(data);
      }
      return match fate case Saves => Returned(()) case Fails => Threw(SaveFailed) case _ => Died;
    }

    /** Opens the journal file, or starts one. */
    static method Open(world: World, identity: Identity, newDeploymentId: Hash) returns (exit: Exit<ChainSeedJournal>)
      requires world.Valid()
      modifies world`file, world`clock
      ensures world.Valid() && FileFollows(old(world.file), world.file)
      ensures exit.Returned? ==>
                && fresh(exit.value) && exit.value.world == world && exit.value.Valid() && world.file == Some(exit.value.data)
                && exit.value.data.identity == identity
                && exit.value.data.deploymentId == (if old(world.file).Some? then old(world.file).value.deploymentId else newDeploymentId)
      ensures exit.Threw? ==>
                && world.file == old(world.file)
                && exit.error == if old(world.file).Some? then IdentityMismatch else SaveFailed
    {
      if world.file.Some? {
        if world.file.value.identity != identity {
          return Threw(IdentityMismatch);
        }
        var journal := new ChainSeedJournal(world, world.file.value);
        return Returned(journal);
      }
      var journal := new ChainSeedJournal(world, Data(identity, newDeploymentId, map[]));
      var saved := journal.Save();
      return match saved case Returned(_) => Returned(journal) case Threw(e) => Threw(e) case Died => Died;
    }

    /** Replaces a step in memory. */
    method SetStep(id: string, step: Step)
      requires Valid()
      requires id in data.steps ==> Follows(data.steps[id], step)
      modifies this`data
      ensures Valid() && data == old(data).(steps := old(data).steps[id := step])
    {
      data := data.(steps := data.steps[id := step]);
    }

    /** Marks a step UNKNOWN and saves it. */
    method GiveUp(id: string, category: FailureCategory, error: SeedError) returns (exit: Exit<Receipt>)
      requires Valid() && id in data.steps
      modifies this`data, world`file, world`clock
      ensures Valid() && FileFollows(old(world.file), world.file)
      ensures !exit.Returned?
      ensures id in data.steps && data.steps[id] == old(data).steps[id].(status := Unknown, failure := Some(category))
      ensures exit == Threw(error) && error != SaveFailed ==> world.file == Some(data)
      ensures exit == Died || exit == Threw(SaveFailed) || exit == Threw(error)
    {
      SetStep(id, data.steps[id].(status := Unknown, failure := Some(category)));
      var saved := Save();
      return match saved case Returned(_) => Threw(error) case Threw(e) => Threw(e) case Died => Died;
    }

    /** Saves the hash of a submitted step, and once more as a failure if that cannot be saved. */
    method RecordHash(id: string, hash: Hash) returns (exit: Exit<()>)
      requires Valid() && id in data.steps && data.steps[id].status.Prepared? && data.steps[id].transactionHash.None?
      modifies this`data, world`file, world`clock
      ensures Valid() && FileFollows(old(world.file), world.file)
      ensures exit.Returned? ==>
                && id in data.steps && data.steps[id] == old(data).steps[id].(transactionHash := Some(hash), status := Submitted)
                && world.file == Some(data)
      ensures old(world.Cooperative()) ==> world.Cooperative() && exit.Returned?
    {
      SetStep(id, data.steps[id].(transactionHash := Some(hash), status := Submitted));
      var saved := Save();
      if !saved.Threw? {
        return saved;
      }
      SetStep(id, data.steps[id].(failure := Some(PostSubmitPersistenceFailure)));
      saved := Save();
      return match saved
        case Returned(_) => Threw(PostSubmitPersistenceRecovered)
        case Threw(_) => Threw(PostSubmitPersistenceFailed)
        case Died => Died;
    }

    /** A step nobody knows of: PREPARED is saved before anything is submitted. */
    method SubmitNew(id: string, intent: string) returns (exit: Exit<()>)
      requires Valid() && id !in data.steps
      modifies this`data, world`file, world`clock, world`submitted
      ensures Valid() && FileFollows(old(world.file), world.file)
      ensures world.submitted == old(world.submitted) || world.submitted == old(world.submitted)[id := 1]
      ensures exit.Returned? ==>
                && id in data.steps && data.steps[id].intent == intent && data.steps[id].status.Submitted? && data.steps[id].transactionHash.Some?
                && data.steps[id].receipt.None? && world.file == Some(data)
      ensures old(world.Cooperative()) ==> world.Cooperative() && exit.Returned?
    {
      assert world.submitted[id] == 0;
      SetStep(id, Step(intent, Prepared, None, None, None));
      var saved := Save();
      if !saved.Returned? {
        return saved;
      }
      var submitted := world.Submit(id);
      if submitted.Kills? {
        return Died;
      }
      if submitted.Throws? {
        var gaveUp := GiveUp(id, SubmitOutcomeUnknown, Ambiguous);
        return if gaveUp.Died? then Died else if gaveUp.Threw? then Threw(gaveUp.error) else Died;
      }
      exit := RecordHash(id, submitted.value);
    }

    /** Waits for the receipt of a known hash and holds it against the one recorded before. */
    method Confirm(id: string) returns (exit: Exit<Receipt>)
      requires Valid() && id in data.steps && !data.steps[id].status.Unknown? && data.steps[id].transactionHash.Some?
      modifies this`data, world`file, world`clock
      ensures Valid() && FileFollows(old(world.file), world.file)
      ensures exit.Returned? ==>
                && exit.value.outcome.Succeeded?
                && id in data.steps && data.steps[id].receipt.Some? && SameReceipt(data.steps[id].receipt.value, exit.value)
                && data.steps[id].intent == old(data).steps[id].intent
                && (old(data).steps[id].receipt.None? ==> world.file == Some(data))
      ensures old(world.Cooperative()) && world.due.outcome.Succeeded?
              && (old(data).steps[id].receipt.Some? ==> SameReceipt(old(data).steps[id].receipt.value, world.due)) ==>
                exit == Returned(world.due)
    {
      var step := data.steps[id];
      var answer := world.WaitForReceipt(step.transactionHash.value);
      if answer.Kills? {
        return Died;
      }
      if answer.Throws? {
        return Threw(ReceiptUnavailable);
      }
      var receipt := answer.value;
      if step.receipt.Some? {
        if !SameReceipt(step.receipt.value, receipt) {
          exit := GiveUp(id, ReceiptChanged, ReceiptHasChanged);
          return;
        }
      } else {
        SetStep(id, step.(receipt := Some(receipt), status := Verified, failure := None));
        var saved := Save();
        if !saved.Returned? {
          return if saved.Threw? then Threw(saved.error) else Died;
        }
      }
      return if receipt.outcome.Succeeded? then Returned(receipt) else Threw(TransactionReverted);
    }

    /** Submits a step once, or resumes it from its recorded hash. */
    method Transaction(id: string, intent: string) returns (exit: Exit<Receipt>)
      requires Valid()
      modifies this`data, world`file, world`clock, world`submitted
      ensures Valid() && FileFollows(old(world.file), world.file)
      ensures world.submitted == old(world.submitted) || (id !in old(data).steps && world.submitted == old(world.submitted)[id := 1])
      ensures Recorded(old(world.file), id) ==> world.submitted == old(world.submitted)
      ensures exit.Returned? ==>
                && exit.value.outcome.Succeeded?
                && id in data.steps && data.steps[id].receipt.Some? && SameReceipt(data.steps[id].receipt.value, exit.value)
                && data.steps[id].intent == intent
      ensures exit.Returned? && Recorded(old(world.file), id) ==>
                var was := old(world.file).value.steps[id];
                !was.status.Unknown? && (was.receipt.Some? ==> SameReceipt(was.receipt.value, exit.value))
      ensures old(world.Cooperative()) && world.due.outcome.Succeeded? && StillOpen(old(data), id, intent, world.due) ==>
                exit == Returned(world.due)
    {
      if id in data.steps && data.steps[id].intent != intent {
        return Threw(IntentMismatch);
      }
      if id !in data.steps {
        var submitted := SubmitNew(id, intent);
        if !submitted.Returned? {
          return if submitted.Threw? then Threw(submitted.error) else Died;
        }
      } else if data.steps[id].status.Prepared? {
        exit := GiveUp(id, PreparedWithoutHash, Ambiguous);
        return;
      }
      if data.steps[id].status.Unknown? {
        return Threw(Ambiguous);
      }
      if data.steps[id].transactionHash.None? {
        return Threw(JournalInvalid);
      }
      exit := Confirm(id);
    }
  }

  // ---- whole histories of process runs ----

  datatype Call = Call(stepId: string, intent: string)

  datatype Process = Process(identity: Identity, newDeploymentId: Hash, calls: seq<Call>)

  /** A call that returned a receipt, and whether the journal file held one for its step by then. */
  datatype Confirmed = Confirmed(stepId: string, receipt: Receipt, stored: bool)

  predicate Stored(file: Option<Data>, id: string) {
    Recorded(file, id) && file.value.steps[id].receipt.Some?
  }

  predicate StoredUnknown(file: Option<Data>, id: string) {
    Recorded(file, id) && file.value.steps[id].status.Unknown?
  }

  /** Every success agrees with the receipt the file held before the run, and none is of a step it held as UNKNOWN. */
  ghost predicate AgreesWith(file: Option<Data>, log: seq<Confirmed>) {
    forall s <- log ::
      && !StoredUnknown(file, s.stepId)
      && (Stored(file, s.stepId) ==> SameReceipt(file.value.steps[s.stepId].receipt.value, s.receipt))
  }

  /** Successes marked as stored agree with the file they left. */
  ghost predicate LeftBehind(file: Option<Data>, log: seq<Confirmed>) {
    forall s <- log | s.stored :: Stored(file, s.stepId) && SameReceipt(file.value.steps[s.stepId].receipt.value, s.receipt)
  }

  /** Once a receipt is stored, every later success of the step agrees with it. */
  ghost predicate Stable(log: seq<Confirmed>) {
    forall i, j :: 0 <= i < j < |log| && log[i].stored && log[i].stepId == log[j].stepId ==> SameReceipt(log[i].receipt, log[j].receipt)
  }

  lemma NextSuccess(first: Option<Data>, before: Option<Data>, after: Option<Data>, log: seq<Confirmed>, s: Confirmed)
    requires FileFollows(first, before) && FileFollows(before, after)
    requires AgreesWith(first, log) && LeftBehind(before, log) && Stable(log)
    requires AgreesWith(before, [s]) && LeftBehind(after, [s])
    ensures AgreesWith(first, log + [s]) && LeftBehind(after, log + [s]) && Stable(log + [s])
  {
    assert s in [s];
    forall x | x in log + [s]
      ensures !StoredUnknown(first, x.stepId)
      ensures Stored(first, x.stepId) ==> SameReceipt(first.value.steps[x.stepId].receipt.value, x.receipt)
      ensures x.stored ==> Stored(after, x.stepId) && SameReceipt(after.value.steps[x.stepId].receipt.value, x.receipt)
    {
      assert x in log || x == s;
    }
    forall i | 0 <= i < |log| && log[i].stored && log[i].stepId == s.stepId ensures SameReceipt(log[i].receipt, s.receipt) {
      assert log[i] in log;
    }
  }

  lemma FileMovesOn(before: Option<Data>, after: Option<Data>, log: seq<Confirmed>)
    requires FileFollows(before, after) && LeftBehind(before, log)
    ensures LeftBehind(after, log)
  {
  }

  lemma StaysRecorded(before: Option<Data>, now: Option<Data>)
    requires FileFollows(before, now)
    ensures forall id :: Recorded(before, id) ==> Recorded(now, id)
  {
  }

  /** One process: opens the journal and makes its calls until it dies. */
  method RunProcess(world: World, p: Process, ghost first: Option<Data>, ghost log: seq<Confirmed>) returns (ghost log': seq<Confirmed>)
    requires world.Valid() && FileFollows(first, world.file)
    requires AgreesWith(first, log) && LeftBehind(world.file, log) && Stable(log)
    modifies world
    ensures world.Valid() && FileFollows(first, world.file)
    ensures AgreesWith(first, log') && LeftBehind(world.file, log') && Stable(log')
    ensures forall id :: old(world.submitted)[id] <= world.submitted[id]
    ensures forall id :: Recorded(old(world.file), id) ==> world.submitted[id] == old(world.submitted)[id]
  {
    hide AgreesWith, LeftBehind, Stable, FileFollows, Recorded, SameReceipt;
    log' := log;
    ghost var before := world.file;
    var open := ChainSeedJournal.Open(world, p.identity, p.newDeploymentId);
    FollowsOn(first, before, world.file);
    FileMovesOn(before, world.file, log);
    if !open.Returned? {
      return;
    }
    var journal := open.value;
    for i := 0 to |p.calls|
      invariant journal.world == world && journal.Valid() && FileFollows(first, world.file) && FileFollows(before, world.file)
      invariant AgreesWith(first, log') && LeftBehind(world.file, log') && Stable(log')
      invariant forall id :: old(world.submitted)[id] <= world.submitted[id]
      invariant forall id :: Recorded(before, id) ==> world.submitted[id] == old(world.submitted)[id]
    {
      ghost var now := world.file;
      StaysRecorded(before, now);
      var id := p.calls[i].stepId;
      var exit := journal.Transaction(id, p.calls[i].intent);
      FollowsOn(first, now, world.file);
      FollowsOn(before, now, world.file);
      if exit.Died? {
        FileMovesOn(now, world.file, log');
        return;
      }
      if exit.Returned? {
        ghost var s := Confirmed(id, exit.value, Stored(world.file, id));
        OneSuccess(now, world.file, journal.data, s);
        NextSuccess(first, now, world.file, log', s);
        log' := log' + [s];
      } else {
        FileMovesOn(now, world.file, log');
      }
    }
  }

  lemma OneSuccess(before: Option<Data>, after: Option<Data>, data: Data, s: Confirmed)
    requires FileFollows(after, Some(data)) && s.stored == Stored(after, s.stepId)
    requires s.stepId in data.steps && data.steps[s.stepId].receipt.Some? && SameReceipt(data.steps[s.stepId].receipt.value, s.receipt)
    requires Recorded(before, s.stepId) ==>
               var was := before.value.steps[s.stepId];
               !was.status.Unknown? && (was.receipt.Some? ==> SameReceipt(was.receipt.value, s.receipt))
    ensures AgreesWith(before, [s]) && LeftBehind(after, [s])
  {
  }

  /** Any sequence of process runs on one journal file, with any save failures and deaths: each step is submitted
      at most once; no step the file held as UNKNOWN succeeds; stored receipts never change. */
  method RunProcesses(world: World, processes: seq<Process>) returns (ghost log: seq<Confirmed>)
    requires world.Valid()
    modifies world
    ensures world.Valid() && (forall id :: world.submitted[id] <= 1)
    ensures FileFollows(old(world.file), world.file)
    ensures AgreesWith(old(world.file), log) && LeftBehind(world.file, log) && Stable(log)
    ensures forall id :: Recorded(old(world.file), id) ==> world.submitted[id] == old(world.submitted)[id]
  {
    log := [];
    ghost var first := world.file;
    for i := 0 to |processes|
      invariant world.Valid() && FileFollows(first, world.file)
      invariant AgreesWith(first, log) && LeftBehind(world.file, log) && Stable(log)
      invariant forall id :: Recorded(first, id) ==> world.submitted[id] == old(world.submitted)[id]
    {
      log := RunProcess(world, processes[i], first, log);
    }
  }
}
