/** LocalStorageJournal: one tab's journal over storage that other tabs write too. */
module LocalStorageJournal {
  import opened Wrappers
  import opened TransactionJournal

  // ---- entries of one operation ----

  /** A saved version of an operation, with its intent. */
  predicate Fits(e: Entry, id: string, intent: Intent) {
    e.id == id && e.intent == intent && e.revision >= 1 && !e.status.Idle?
  }

  /** Every version of the operation in the list is one. */
  ghost predicate AllFit(entries: seq<Entry>, id: string, intent: Intent) {
    forall e <- entries :: e.id == id ==> Fits(e, id, intent)
  }

  /** The write is not to this operation, or keeps its intent. */
  predicate Keeps(w: Write, id: string, intent: Intent) {
    w.entry.id == id ==> w.entry.intent == intent && !w.entry.status.Idle?
  }

  lemma PerformFits(entries: seq<Entry>, w: Write, id: string, intent: Intent)
    requires AllFit(entries, id, intent) && Keeps(w, id, intent) && Perform(entries, w).Success?
    ensures AllFit(Perform(entries, w).value.entries, id, intent)
    ensures w.entry.id == id ==> Fits(Perform(entries, w).value.stored, id, intent)
  {
  }

  lemma {:induction false} PerformAllFits(entries: seq<Entry>, writes: seq<Write>, id: string, intent: Intent)
    requires AllFit(entries, id, intent) && forall w <- writes :: Keeps(w, id, intent)
    decreases |writes|
    ensures AllFit(PerformAll(entries, writes), id, intent)
  {
    hide AllFit, Keeps;
    if writes != [] {
      var r := Perform(entries, writes[0]);
      if r.Success? {
        PerformFits(entries, writes[0], id, intent);
      }
      PerformAllFits(if r.Success? then r.value.entries else entries, writes[1..], id, intent);
    }
  }

  /** The shared local storage of one deployment: its valid entries, none if what is stored is no list at all, and
      whether anything else is wrong with it. What other tabs write while this one waits for the lock, and which reads
      and writes fail, are arbitrary. */
  class LocalStorage {
    var entries: seq<Entry>
    var damaged: bool
    var clock: nat
    const othersAt: nat -> seq<Write>
    const readableAt: nat -> bool
    const writableAt: nat -> bool

    constructor (entries: seq<Entry>, damaged: bool, othersAt: nat -> seq<Write>, readableAt: nat -> bool, writableAt: nat -> bool)
      ensures this.entries == entries && this.damaged == damaged
      ensures this.othersAt == othersAt && this.readableAt == readableAt && this.writableAt == writableAt
    {
      this.entries, this.damaged, clock := entries, damaged, 0;
      this.othersAt, this.readableAt, this.writableAt := othersAt, readableAt, writableAt;
    }

    /** From now on every read and write works. */
    ghost predicate Working()
      reads this`clock, this`damaged
    {
      !damaged && forall t :: t >= clock ==> readableAt(t) && writableAt(t)
    }

    /** From now on no other tab writes. */
    ghost predicate Alone()
      reads this`clock
    {
      forall t :: t >= clock ==> othersAt(t) == []
    }

    /** What other tabs ever write keeps this operation's intent. */
    ghost predicate OthersKeep(id: string, intent: Intent) {
      forall t: nat, w: TransactionJournal.Write :: w in othersAt(t) ==> Keeps(w, id, intent)
    }

    /** All that other tabs write at these moments. */
    ghost function OthersWrites(moments: seq<nat>): seq<TransactionJournal.Write> {
      if moments == [] then [] else othersAt(moments[0]) + OthersWrites(moments[1..])
    }

    /** From `a` to `b` only other tabs wrote, if anyone did. */
    ghost predicate OthersOn(a: seq<Entry>, b: seq<Entry>) {
      exists moments :: b == PerformAll(a, OthersWrites(moments))
    }

    lemma NobodyOn(a: seq<Entry>)
      ensures OthersOn(a, a)
    {
      assert a == PerformAll(a, OthersWrites([]));
    }

    lemma OthersOnce(a: seq<Entry>, t: nat)
      ensures OthersOn(a, PerformAll(a, othersAt(t)))
    {
      hide PerformAll;
      assert [t][1..] == [];
      assert OthersWrites([t]) == othersAt(t);
    }

    lemma {:induction false} OthersWritesAppend(first: seq<nat>, second: seq<nat>)
      ensures OthersWrites(first + second) == OthersWrites(first) + OthersWrites(second)
    {
      if first == [] {
        assert first + second == second;
      } else {
        assert (first + second)[1..] == first[1..] + second;
        OthersWritesAppend(first[1..], second);
      }
    }

    lemma OthersGoOn(a: seq<Entry>, b: seq<Entry>, c: seq<Entry>)
      requires OthersOn(a, b) && OthersOn(b, c)
      ensures OthersOn(a, c)
    {
      hide PerformAll, OthersWrites;
      var first :| b == PerformAll(a, OthersWrites(first));
      var second :| c == PerformAll(b, OthersWrites(second));
      PerformAllAppend(a, OthersWrites(first), OthersWrites(second));
      OthersWritesAppend(first, second);
      assert c == PerformAll(a, OthersWrites(first + second));
    }

    lemma {:induction false} OthersWritesKeep(moments: seq<nat>, id: string, intent: Intent)
      requires OthersKeep(id, intent)
      ensures forall w <- OthersWrites(moments) :: Keeps(w, id, intent)
    {
      hide Keeps;
      if moments != [] {
        OthersWritesKeep(moments[1..], id, intent);
      }
    }

    lemma OthersOnFits(a: seq<Entry>, b: seq<Entry>, id: string, intent: Intent)
      requires OthersOn(a, b) && OthersKeep(id, intent) && AllFit(a, id, intent)
      ensures AllFit(b, id, intent)
    {
      hide AllFit, Keeps, PerformAll, OthersWrites, OthersKeep;
      var moments :| b == PerformAll(a, OthersWrites(moments));
      OthersWritesKeep(moments, id, intent);
      PerformAllFits(a, OthersWrites(moments), id, intent);
    }

    lemma OthersOnPerforms(a: seq<Entry>, b: seq<Entry>)
      requires OthersOn(a, b)
      ensures exists others :: b == PerformAll(a, others)
    {
      hide PerformAll, OthersWrites;
      var moments :| b == PerformAll(a, OthersWrites(moments));
    }

    /** An operation whose revision is still the same was not written. */
    lemma SameRevisionIsSame(a: seq<Entry>, b: seq<Entry>, id: string)
      requires OthersOn(a, b) && UniqueIds(a)
      ensures UniqueIds(b) && RevisionIn(b, id) >= RevisionIn(a, id)
      ensures RevisionIn(b, id) == RevisionIn(a, id) ==> Find(b, id) == Find(a, id)
    {
      hide UniqueIds, Find, RevisionIn, Accepted, PerformAll;
      OthersOnPerforms(a, b);
      var others :| b == PerformAll(a, others);
      RevisionCountsWrites(a, others, id);
      if Accepted(a, others, id) == 0 {
        UnwrittenIsUnchanged(a, others, id);
      }
    }

    /** Any await, and above all waiting for the exclusive write lock: other tabs' locked writes come first, unless the
        damage stops them too. */
    method OthersWrite() returns (ghost others: seq<Write>)
      modifies this
      ensures entries == PerformAll(old(entries), others) && OthersOn(old(entries), entries) && damaged == old(damaged)
      ensures old(Working()) ==> Working()
      ensures old(Alone()) ==> Alone() && entries == old(entries)
    {
      others := [];
      NobodyOn(entries);
      if !damaged {
        others := othersAt(clock);
        OthersOnce(entries, clock);
        entries := PerformAll(entries, othersAt(clock));
      }
      clock := clock + 1;
    }

    /** getItem and the schema check: the valid entries, and what is wrong. */
    method Read() returns (loaded: seq<Entry>, issue: Option<JournalError>)
      modifies this`clock
      ensures issue == Some(StorageUnavailable) ==> loaded == []
      ensures issue != Some(StorageUnavailable) ==> loaded == entries && (issue == Some(StorageInvalid) <==> damaged)
      ensures issue != Some(RevisionConflict)
      ensures old(Working()) ==> Working() && issue == None
      ensures old(Alone()) ==> Alone()
    {
      var readable := readableAt(clock);
      clock := clock + 1;
      if !readable {
        return [], Some(StorageUnavailable);
      }
      return entries, if damaged then Some(StorageInvalid) else None;
    }

    /** setItem. */
    method Write(next: seq<Entry>) returns (written: bool)
      modifies this
      ensures entries == (if written then next else old(entries)) && damaged == old(damaged)
      ensures old(Working()) ==> Working() && written
      ensures old(Alone()) ==> Alone()
    {
      written := writableAt(clock);
      clock := clock + 1;
      if written {
        entries := next;
      }
    }
  }

  /** What a tab's journal holds: the durable entries, its overlay, and the revisions the overlay was made on. */
  datatype Local = Local(durable: seq<Entry>, overlay: map<string, Entry>, bases: map<string, nat>)

  /** The version of an operation that the tab shows. */
  function ShownOf(v: Local, id: string): (shown: Option<Entry>)
    ensures shown.Some? && (id in v.overlay ==> v.overlay[id].id == id) ==> shown.value.id == id
  {
    if id in v.overlay then Some(v.overlay[id]) else Find(v.durable, id)
  }

  function RevisionShown(v: Local, id: string): nat {
    match ShownOf(v, id) case None => 0 case Some(e) => e.revision
  }

  /** The entry builds on the revision that is shown. */
  predicate Writable(v: Local, next: Entry) {
    next.revision == RevisionShown(v, next.id)
  }

  lemma ShownIsInView(v: Local, e: Entry)
    requires UniqueIds(v.durable) && InView(v.durable, v.overlay, e)
    ensures ShownOf(v, e.id) == Some(e)
  {
    if e.id !in v.overlay {
      UniqueIsFound(v.durable, e);
    }
  }

  datatype CallKind = SaveCall | RetryCall | VolatileCall

  /** One write of a tab's journal: what it found, under the lock if it took it, and what it left. */
  datatype Call = Call(kind: CallKind, entry: Entry, succeeds: bool, before: Local, after: Local)

  /** What each kind of write does. */
  ghost predicate Happened(c: Call) {
    var e, before := c.entry, c.before;
    match c.kind
    case SaveCall =>
      if e.id in before.overlay then
        && (c.succeeds <==> e.revision == before.overlay[e.id].revision)
        && c.after == if c.succeeds then before.(overlay := before.overlay[e.id := e.(revision := e.revision + 1)]) else before
      else
        && (c.succeeds ==> DurableSave(before.durable, e).Success?)
        && c.after == if c.succeeds then before.(durable := DurableSave(before.durable, e).value.entries) else before
    case RetryCall =>
      && e.id in before.overlay && e.id in before.bases
      && (c.succeeds ==>
            e.revision == before.overlay[e.id].revision && DurableRetry(before.durable, e, before.bases[e.id]).Success?)
      && c.after == if c.succeeds then Local(DurableRetry(before.durable, e, before.bases[e.id]).value.entries,
                                             before.overlay - {e.id}, before.bases - {e.id})
                    else before
    case VolatileCall =>
      && c.succeeds && before.bases.Keys == before.overlay.Keys
      && c.after == Local(before.durable, before.overlay[e.id := e.(revision := e.revision + 1)],
                          if e.id in before.overlay then before.bases else before.bases[e.id := e.revision])
  }

  /** From `a` to `b` this tab wrote nothing, and the durable list was written by other tabs alone. */
  ghost predicate Waited(storage: LocalStorage, a: Local, b: Local) {
    a.overlay == b.overlay && a.bases == b.bases && storage.OthersOn(a.durable, b.durable)
  }

  /** From `a` to `b` this tab made exactly these writes, and everything else was written by other tabs. */
  ghost predicate Explains(storage: LocalStorage, a: Local, calls: seq<Call>, b: Local)
    decreases |calls|
  {
    if calls == [] then Waited(storage, a, b)
    else Waited(storage, a, calls[0].before) && Happened(calls[0]) && Explains(storage, calls[0].after, calls[1..], b)
  }

  lemma WaitedOn(storage: LocalStorage, a: Local, b: Local, c: Local)
    requires Waited(storage, a, b) && Waited(storage, b, c)
    ensures Waited(storage, a, c)
  {
    hide LocalStorage.OthersOn;
    storage.OthersGoOn(a.durable, b.durable, c.durable);
  }

  lemma {:induction false} WaitedExplains(storage: LocalStorage, a: Local, b: Local, calls: seq<Call>, c: Local)
    requires Waited(storage, a, b) && Explains(storage, b, calls, c)
    ensures Explains(storage, a, calls, c)
  {
    hide Happened, Waited;
    WaitedOn(storage, a, b, if calls == [] then c else calls[0].before);
  }

  lemma {:induction false} ExplainsOn(storage: LocalStorage, a: Local, first: seq<Call>, b: Local, second: seq<Call>, c: Local)
    requires Explains(storage, a, first, b) && Explains(storage, b, second, c)
    decreases |first|
    ensures Explains(storage, a, first + second, c)
  {
    hide Happened, Waited;
    if first == [] {
      assert first + second == second;
      WaitedExplains(storage, a, b, second, c);
    } else {
      assert (first + second)[1..] == first[1..] + second;
      ExplainsOn(storage, first[0].after, first[1..], b, second, c);
    }
  }

  lemma {:induction false} ExplainedHappened(storage: LocalStorage, a: Local, calls: seq<Call>, b: Local)
    requires Explains(storage, a, calls, b)
    decreases |calls|
    ensures forall c <- calls :: Happened(c)
  {
    hide Happened, Waited;
    if calls != [] {
      ExplainedHappened(storage, calls[0].after, calls[1..], b);
    }
  }

  /** Whatever the tab and the others write, ids stay unique. */
  lemma {:induction false} ExplainsUnique(storage: LocalStorage, a: Local, calls: seq<Call>, b: Local)
    requires Explains(storage, a, calls, b) && UniqueIds(a.durable)
    decreases |calls|
    ensures UniqueIds(b.durable)
  {
    hide UniqueIds, LocalStorage.OthersOn, Happened;
    if calls == [] {
      storage.SameRevisionIsSame(a.durable, b.durable, "");
    } else {
      storage.SameRevisionIsSame(a.durable, calls[0].before.durable, "");
      CallKeepsUnique(calls[0]);
      ExplainsUnique(storage, calls[0].after, calls[1..], b);
    }
  }

  lemma CallKeepsUnique(c: Call)
    requires Happened(c) && UniqueIds(c.before.durable)
    ensures UniqueIds(c.after.durable)
  {
    hide UniqueIds, DurableSave, DurableRetry;
    if c.succeeds && c.kind.SaveCall? && c.entry.id !in c.before.overlay {
      WriteIsCompareAndSwap(c.before.durable, SaveOf(c.entry), "");
    } else if c.succeeds && c.kind.RetryCall? {
      WriteIsCompareAndSwap(c.before.durable, RetryOf(c.entry, c.before.bases[c.entry.id]), "");
    }
  }

  /** A tab's journal at one moment: the writes it made until then, and what it holds. */
  datatype Moment = Moment(calls: seq<Call>, held: Local)

  /** Between two moments the tab's logged writes and other tabs' are all that changed the journal. */
  ghost predicate Went(storage: LocalStorage, a: Moment, b: Moment) {
    a.calls <= b.calls && Explains(storage, a.held, b.calls[|a.calls|..], b.held)
  }

  lemma WentNowhere(storage: LocalStorage, a: Moment)
    ensures Went(storage, a, a)
  {
    hide LocalStorage.OthersOn;
    storage.NobodyOn(a.held.durable);
  }

  lemma WentOn(storage: LocalStorage, a: Moment, b: Moment, c: Moment)
    requires Went(storage, a, b) && Went(storage, b, c)
    ensures Went(storage, a, c)
  {
    hide Explains;
    assert c.calls[|a.calls|..] == b.calls[|a.calls|..] + c.calls[|b.calls|..];
    ExplainsOn(storage, a.held, b.calls[|a.calls|..], b.held, c.calls[|b.calls|..], c.held);
  }

  lemma UniqueGoesOn(storage: LocalStorage, a: Moment, b: Moment)
    requires Went(storage, a, b)
    ensures UniqueIds(a.held.durable) ==> UniqueIds(b.held.durable)
  {
    hide Explains, UniqueIds;
    if UniqueIds(a.held.durable) {
      ExplainsUnique(storage, a.held, b.calls[|a.calls|..], b.held);
    }
  }

  lemma WentByOne(storage: LocalStorage, a: Moment, c: Call)
    requires Waited(storage, a.held, c.before) && Happened(c)
    ensures Went(storage, a, Moment(a.calls + [c], c.after))
  {
    hide Happened, LocalStorage.OthersOn;
    storage.NobodyOn(c.after.durable);
    assert Explains(storage, c.after, [], c.after);
    assert [c][0] == c && [c][1..] == [];
    assert Explains(storage, a.held, [c], c.after);
    assert (a.calls + [c])[|a.calls|..] == [c];
  }

  lemma WentWaiting(storage: LocalStorage, a: Moment, b: Moment)
    requires a.calls == b.calls && Waited(storage, a.held, b.held)
    ensures Went(storage, a, b)
  {
    hide Waited;
    assert b.calls[|a.calls|..] == [];
  }

  /** The operation's versions fit, in storage and in the overlay. */
  ghost predicate LocalFits(v: Local, id: string, intent: Intent) {
    AllFit(v.durable, id, intent) && (id in v.overlay ==> Fits(v.overlay[id], id, intent))
  }

  /** A write that keeps the operation's intent leaves them fitting. */
  lemma CallFits(c: Call, id: string, intent: Intent)
    requires Happened(c) && LocalFits(c.before, id, intent) && Keeps(SaveOf(c.entry), id, intent)
    ensures LocalFits(c.after, id, intent)
  {
    hide AllFit, DurableSave, DurableRetry;
    var e, before := c.entry, c.before;
    if c.succeeds && c.kind.SaveCall? && e.id !in before.overlay {
      PerformFits(before.durable, SaveOf(e), id, intent);
    } else if c.succeeds && c.kind.RetryCall? {
      PerformFits(before.durable, RetryOf(e, before.bases[e.id]), id, intent);
    }
  }

  /** The later writes are all of saved versions of the operation. */
  ghost predicate CallsFit(earlier: seq<Call>, later: seq<Call>, id: string, intent: Intent) {
    earlier <= later && forall i :: |earlier| <= i < |later| ==> Fits(later[i].entry, id, intent)
  }

  lemma CallsFitOn(a: seq<Call>, b: seq<Call>, c: seq<Call>, id: string, intent: Intent)
    requires CallsFit(a, b, id, intent) && CallsFit(b, c, id, intent)
    ensures CallsFit(a, c, id, intent)
  {
    hide Fits;
    forall i | |a| <= i < |c| ensures Fits(c[i].entry, id, intent) {
      if i < |b| {
        assert c[i] == b[i];
      }
    }
  }

  /** The operations whose last write failed. */
  function IssuesAfter(issues: set<string>, id: string, r: Result<Entry, JournalError>): set<string> {
    if r.Success? then issues - {id} else if r.error.StorageUnavailable? then issues + {id} else issues
  }

  class Journal {
    const storage: LocalStorage
    var volatileEntries: map<string, Entry>
    var volatileBaseRevisions: map<string, nat>
    var writeIssues: set<string>
    /** Every write so far. */
    ghost var calls: seq<Call>

    /** Every volatile entry is kept under its own operation, together with the revision it was first made on. */
    ghost predicate Valid()
      reads this
    {
      && volatileBaseRevisions.Keys == volatileEntries.Keys
      && (forall id <- volatileEntries :: volatileEntries[id].id == id)
    }

    ghost function Contents(): Local
      reads this, storage`entries
    {
      Local(storage.entries, volatileEntries, volatileBaseRevisions)
    }

    ghost function Now(): Moment
      reads this, storage`entries
    {
      Moment(calls, Contents())
    }

    /** Every version of the operation is a saved one with its intent, and other tabs keep it so. */
    ghost predicate Regular(id: string, intent: Intent)
      reads this, storage`entries
    {
      LocalFits(Contents(), id, intent) && storage.OthersKeep(id, intent)
    }

    lemma ShownFits(e: Entry, id: string, intent: Intent)
      requires Regular(id, intent) && InView(storage.entries, volatileEntries, e) && e.id == id
      ensures Fits(e, id, intent)
    {
    }

    /** Other tabs' writes keep it so. */
    lemma StaysRegular(start: seq<Entry>, id: string, intent: Intent)
      requires LocalFits(Contents().(durable := start), id, intent) && storage.OthersKeep(id, intent)
      requires storage.OthersOn(start, storage.entries)
      ensures Regular(id, intent)
    {
      hide AllFit, LocalStorage.OthersOn, LocalStorage.OthersKeep;
      storage.OthersOnFits(start, storage.entries, id, intent);
    }

    constructor (storage: LocalStorage)
      ensures this.storage == storage && Valid() && volatileEntries == map[] && writeIssues == {} && calls == []
    {
      this.storage := storage;
      volatileEntries, volatileBaseRevisions, writeIssues, calls := map[], map[], {}, [];
    }

    /** load: the durable entries under the overlay; the overlay alone when storage cannot be read. */
    method Load() returns (view: seq<Entry>, readable: bool)
      requires Valid()
      modifies storage`clock
      ensures forall id <- volatileEntries :: volatileEntries[id] in view
      ensures forall e <- view :: InView(storage.entries, volatileEntries, e)
      ensures if readable then forall e :: InView(storage.entries, volatileEntries, e) ==> e in view
              else forall e <- view :: e.id in volatileEntries
      ensures old(storage.Working()) ==> storage.Working() && readable
      ensures old(storage.Alone()) ==> storage.Alone()
    {
      var loaded, issue := storage.Read();
      readable := issue != Some(StorageUnavailable);
      view := [];
      for i := 0 to |loaded|
        invariant forall e :: e in view <==> e in loaded[..i] && e.id !in volatileEntries
      {
        assert loaded[..i + 1] == loaded[..i] + [loaded[i]];
        if loaded[i].id !in volatileEntries {
          view := view + [loaded[i]];
        }
      }
      assert loaded[..|loaded|] == loaded;
      ghost var durable := view;
      var todo := volatileEntries.Keys;
      while todo != {}
        invariant todo <= volatileEntries.Keys
        invariant forall e :: e in view <==> e in durable || exists id <- volatileEntries.Keys - todo :: volatileEntries[id] == e
      {
        var id :| id in todo;
        todo := todo - {id};
        view := view + [volatileEntries[id]];
      }
    }

    /** The entry shown for an operation, and whether storage could be read for it. */
    method Current(id: string) returns (current: Option<Entry>, readable: bool)
      requires Valid()
      modifies storage`clock
      ensures current.Some? ==> current.value.id == id && InView(storage.entries, volatileEntries, current.value)
      ensures current.None? ==> id !in volatileEntries
      ensures old(storage.Working()) ==>
                && storage.Working() && readable
                && (current.None? ==> forall e :: InView(storage.entries, volatileEntries, e) ==> e.id != id)
      ensures old(storage.Alone()) ==> storage.Alone()
    {
      var view;
      view, readable := Load();
      current := Find(view, id);
    }

    /** The locked part of both durable writes; `at` is the list the lock was acquired on. */
    method WriteLocked(w: TransactionJournal.Write)
      returns (r: Result<Entry, JournalError>, ghost at: seq<Entry>)
      modifies storage
      ensures storage.OthersOn(old(storage.entries), at)
      ensures r.Success? ==>
                && !storage.damaged && Perform(at, w).Success? && r.value == Perform(at, w).value.stored
                && storage.entries == Perform(at, w).value.entries
      ensures r.Failure? ==> storage.entries == at
      ensures r.Failure? && r.error.RevisionConflict? ==> Perform(at, w).Failure?
      ensures storage.damaged == old(storage.damaged)
      ensures old(storage.Working()) ==>
                storage.Working() && (Perform(at, w).Success? ==> r.Success?) && (r.Failure? ==> r.error.RevisionConflict?)
      ensures old(storage.Alone()) ==> storage.Alone() && at == old(storage.entries)
    {
      ghost var others := storage.OthersWrite();
      at := storage.entries;
      var loaded, issue := storage.Read();
      if issue.Some? {
        return Failure(issue.value), at;
      }
      var result := Perform(loaded, w);
      if result.Failure? {
        return Failure(result.error), at;
      }
      var written := storage.Write(result.value.entries);
      if !written {
        return Failure(StorageUnavailable), at;
      }
      return Success(result.value.stored), at;
    }

    /** Writes down a write that just happened. */
    ghost method Record(kind: CallKind, entry: Entry, succeeds: bool, before: Local, start: seq<Entry>)
      requires Happened(Call(kind, entry, succeeds, before, Contents()))
      requires storage.OthersOn(start, before.durable)
      modifies this`calls
      ensures calls == old(calls) + [Call(kind, entry, succeeds, before, Contents())]
      ensures Went(storage, Moment(old(calls), before.(durable := start)), Now())
      ensures forall id, intent ::
                LocalFits(before.(durable := start), id, intent) && storage.OthersKeep(id, intent) && Keeps(SaveOf(entry), id, intent) ==>
                  Regular(id, intent)
    {
      hide Happened, Went, Keeps, LocalStorage.OthersOn, LocalStorage.OthersKeep, AllFit;
      var c := Call(kind, entry, succeeds, before, Contents());
      WentByOne(storage, Moment(calls, before.(durable := start)), c);
      calls := calls + [c];
      forall id, intent |
        LocalFits(before.(durable := start), id, intent) && storage.OthersKeep(id, intent) && Keeps(SaveOf(entry), id, intent)
        ensures Regular(id, intent)
      {
        storage.OthersOnFits(start, before.durable, id, intent);
        CallFits(c, id, intent);
      }
    }

    /** save: into the overlay while the operation is volatile, else durably by compare-and-swap. */
    method Save(entry: Entry) returns (r: Result<Entry, JournalError>, ghost at: seq<Entry>)
      requires Valid()
      modifies this, storage
      ensures Valid() && volatileBaseRevisions == old(volatileBaseRevisions)
      ensures if entry.id in old(volatileEntries) then
                && storage.entries == old(storage.entries) == at && writeIssues == old(writeIssues)
                && (r.Success? <==> entry.revision == old(volatileEntries)[entry.id].revision)
                && (r.Success? ==>
                      && r.value == entry.(revision := entry.revision + 1)
                      && volatileEntries == old(volatileEntries)[entry.id := r.value])
                && (r.Failure? ==> r.error.RevisionConflict? && volatileEntries == old(volatileEntries))
              else
                && volatileEntries == old(volatileEntries) && storage.OthersOn(old(storage.entries), at)
                && (r.Success? ==>
                      && DurableSave(at, entry).Success? && r.value == DurableSave(at, entry).value.stored
                      && storage.entries == DurableSave(at, entry).value.entries)
                && (r.Failure? ==> storage.entries == at)
                && writeIssues == IssuesAfter(old(writeIssues), entry.id, r)
                && (r.Failure? && r.error.RevisionConflict? ==> RevisionIn(at, entry.id) != entry.revision)
                && (old(storage.Working()) && DurableSave(at, entry).Success? ==> r.Success?)
      ensures calls == old(calls) + [Call(SaveCall, entry, r.Success?, old(Contents()).(durable := at), Contents())]
      ensures Went(storage, old(Now()), Now())
      ensures forall id, intent :: old(Regular(id, intent)) && Keeps(SaveOf(entry), id, intent) ==> Regular(id, intent)
      ensures old(storage.Working()) ==> storage.Working() && (r.Failure? ==> r.error.RevisionConflict?)
      ensures old(storage.Alone()) ==> storage.Alone() && at == old(storage.entries)
    {
      hide Went, LocalFits, Keeps, PerformAll, LocalStorage.OthersKeep;
      ghost var start := Contents();
      storage.NobodyOn(storage.entries);
      if entry.id in volatileEntries {
        at := storage.entries;
        if entry.revision != volatileEntries[entry.id].revision {
          r := Failure(RevisionConflict);
        } else {
          var stored := entry.(revision := entry.revision + 1);
          volatileEntries := volatileEntries[entry.id := stored];
          r := Success(stored);
        }
      } else {
        r, at := WriteLocked(SaveOf(entry));
        writeIssues := IssuesAfter(writeIssues, entry.id, r);
      }
      Record(SaveCall, entry, r.Success?, start.(durable := at), start.durable);
    }

    /** retryDurableSave: makes a volatile entry durable and drops it from the overlay. */
    method RetryDurableSave(entry: Entry) returns (r: Result<Entry, JournalError>, ghost at: seq<Entry>)
      requires Valid()
      modifies this, storage
      ensures Valid()
      ensures entry.id in old(volatileEntries) ==>
                && (r.Success? ==>
                      var w := RetryOf(entry, old(volatileBaseRevisions)[entry.id]);
                      && entry.revision == old(volatileEntries)[entry.id].revision
                      && Perform(at, w).Success? && r.value == Perform(at, w).value.stored && storage.entries == Perform(at, w).value.entries
                      && volatileEntries == old(volatileEntries) - {entry.id})
                && (r.Failure? ==> storage.entries == at && volatileEntries == old(volatileEntries))
                && storage.OthersOn(old(storage.entries), at)
                && (old(storage.Working()) && entry.revision == old(volatileEntries)[entry.id].revision
                    && Perform(at, RetryOf(entry, old(volatileBaseRevisions)[entry.id])).Success? ==>
                      r.Success?)
      ensures volatileBaseRevisions ==
              if entry.id in old(volatileEntries) && r.Success? then old(volatileBaseRevisions) - {entry.id} else old(volatileBaseRevisions)
      ensures writeIssues == IssuesAfter(old(writeIssues), entry.id, r)
      ensures entry.id !in old(volatileEntries) ==>
                && volatileEntries == old(volatileEntries) && storage.OthersOn(old(storage.entries), at)
                && (r.Success? ==>
                      && DurableSave(at, entry).Success? && r.value == DurableSave(at, entry).value.stored
                      && storage.entries == DurableSave(at, entry).value.entries)
                && (r.Failure? ==> storage.entries == at)
      ensures old(storage.Working()) ==> storage.Working() && (r.Failure? ==> r.error.RevisionConflict?)
      ensures old(storage.Alone()) ==> storage.Alone() && at == old(storage.entries)
      ensures var kind := if entry.id in old(volatileEntries) then RetryCall else SaveCall;
              calls == old(calls) + [Call(kind, entry, r.Success?, old(Contents()).(durable := at), Contents())]
      ensures Went(storage, old(Now()), Now())
      ensures forall id, intent :: old(Regular(id, intent)) && Keeps(SaveOf(entry), id, intent) ==> Regular(id, intent)
    {
      hide Went, LocalFits, Keeps, PerformAll, DurableSave, DurableRetry, LocalStorage.OthersKeep;
      if entry.id !in volatileEntries {
        r, at := Save(entry);
        return;
      }
      ghost var start := Contents();
      storage.NobodyOn(storage.entries);
      if entry.revision != volatileEntries[entry.id].revision {
        at := storage.entries;
        r := Failure(RevisionConflict);
      } else {
        r, at := WriteLocked(RetryOf(entry, volatileBaseRevisions[entry.id]));
        if r.Success? {
          volatileEntries := volatileEntries - {entry.id};
          volatileBaseRevisions := volatileBaseRevisions - {entry.id};
        }
        writeIssues := IssuesAfter(writeIssues, entry.id, r);
      }
      Record(RetryCall, entry, r.Success?, start.(durable := at), start.durable);
    }

    /** saveVolatile: remembers the revision the first volatile version was made on. */
    method SaveVolatile(entry: Entry) returns (stored: Entry)
      requires Valid()
      modifies this
      ensures Valid() && stored == entry.(revision := entry.revision + 1)
      ensures volatileEntries == old(volatileEntries)[entry.id := stored] && writeIssues == old(writeIssues)
      ensures volatileBaseRevisions ==
              if entry.id in old(volatileEntries) then old(volatileBaseRevisions) else old(volatileBaseRevisions)[entry.id := entry.revision]
      ensures calls == old(calls) + [Call(VolatileCall, entry, true, old(Contents()), Contents())]
      ensures Went(storage, old(Now()), Now())
      ensures forall id, intent :: old(Regular(id, intent)) && Keeps(SaveOf(entry), id, intent) ==> Regular(id, intent)
    {
      hide Went, LocalFits, Keeps, LocalStorage.OthersKeep;
      ghost var start := Contents();
      storage.NobodyOn(storage.entries);
      if entry.id !in volatileBaseRevisions {
        volatileBaseRevisions := volatileBaseRevisions[entry.id := entry.revision];
      }
      stored := entry.(revision := entry.revision + 1);
      volatileEntries := volatileEntries[entry.id := stored];
      Record(VolatileCall, entry, true, start, start.durable);
    }
  }
}
