/** observeFunding: what the read model says of one funding log, and why it can be trusted in every state that
    agrees with its journal. */
module FundingObservation {
  import opened Wrappers
  import opened Domain
  import opened Projectors
  import opened ProjectionTables
  import opened EntityReplay
  import opened Lifecycle
  import opened JournalDatabase
  import opened Ledger
  import opened RebuildLedger
  import opened Convergence

  const MAX_SAFE_INTEGER: nat := 9007199254740991

  datatype Selector = Selector(blockNumber: nat, blockHash: Hash, transactionHash: Hash, logIndex: nat)

  datatype Coverage = NotReached | Scanned | Unverifiable
  datatype EventLookup = NotFound | SelectorMismatch | Noncanonical | Matched
  datatype Effect = NotAssessed | Consistent | Inconsistent

  datatype Observation = Observation(
    sale: Option<Sale>, claim: Option<Claim>, coverage: Coverage, observedAtHeight: Option<Hash>,
    eventLookup: EventLookup, matchedEvent: Option<OrderedEvent>, effect: Effect)

  datatype ReadModelError = BlockNumberUnsafe | ReadModelUninitialized

  /** The requested block is canonical, scanned and of the current log scope. */
  predicate ScannedBlock(db: Db, s: Selector) {
    HasCanonicalBlock(db, s.blockNumber, s.blockHash) && db.blocks[s.blockHash].logScope == db.logScope
  }

  /** The journal row the selector names is this sale's funding by the escrow. */
  predicate Selects(db: Db, escrow: Address, saleId: nat, s: Selector) {
    var key := EventKey(s.blockHash, s.logIndex);
    && key in db.events
    && db.events[key].envelope.transactionHash == s.transactionHash
    && db.events[key].envelope.blockNumber == s.blockNumber
    && db.events[key].envelope.contractAddress == escrow
    && db.events[key].decoded.SaleFunded? && db.events[key].decoded.saleId == saleId
  }

  /** What a funding event should have done to its sale. */
  predicate FundingApplied(sale: Sale, funded: Event)
    requires funded.SaleFunded?
  {
    && sale.saleId == funded.saleId && WasFunded(sale.status)
    && sale.buyer == Some(funded.buyer) && sale.fundedAt == Some(funded.fundedAt) && sale.expiresAt == Some(funded.expiresAt)
  }

  predicate EffectConsistent(sale: Option<Sale>, claim: Option<Claim>, funded: Event)
    requires funded.SaleFunded?
  {
    && sale.Some? && FundingApplied(sale.value, funded) && sale.value.priceWei == funded.amountWei
    && (sale.value.status.Funded? ==> claim.None?)
  }

  method CanonicalAtHeight(db: Db, number: nat) returns (hash: Option<Hash>)
    requires OneCanonicalPerHeight(db.blocks)
    ensures hash.Some? ==> hash.value in db.blocks && db.blocks[hash.value].number == number && db.blocks[hash.value].canonical
    ensures hash.None? ==> forall h <- db.blocks :: db.blocks[h].number == number ==> !db.blocks[h].canonical
  {
    if h :| h in db.blocks && db.blocks[h].number == number && db.blocks[h].canonical {
      return Some(h);
    }
    return None;
  }

  /** One observation in one read snapshot. */
  method ObserveFunding(db: Db, escrow: Address, saleId: nat, s: Selector) returns (r: Result<Observation, ReadModelError>)
    requires OneCanonicalPerHeight(db.blocks)
    ensures r.Success? <==> s.blockNumber <= MAX_SAFE_INTEGER && db.checkpoint.Some?
    ensures r.Failure? ==> r.error == if s.blockNumber > MAX_SAFE_INTEGER then BlockNumberUnsafe else ReadModelUninitialized
    ensures r.Success? ==>
              var o := r.value;
              && o.sale == SaleOf(Lookup(db.tables.sales, saleId)) && o.claim == ClaimOf(Lookup(db.tables.claims, saleId))
              && o.coverage == (if db.checkpoint.value.number < s.blockNumber then NotReached
                                else if ScannedBlock(db, s) then Scanned else Unverifiable)
              && (o.observedAtHeight.Some? ==> HasCanonicalNumber(db, o.observedAtHeight.value, s.blockNumber))
              && (o.observedAtHeight.None? ==> forall h <- db.blocks :: !HasCanonicalNumber(db, h, s.blockNumber))
              && (o.eventLookup.Noncanonical? <==> s.blockHash in db.blocks && !HasCanonicalNumber(db, s.blockHash, s.blockNumber))
              && (o.eventLookup.Matched? <==> o.coverage.Scanned? && Selects(db, escrow, saleId, s))
              && (o.eventLookup.SelectorMismatch? <==>
                    o.coverage.Scanned? && EventKey(s.blockHash, s.logIndex) in db.events && !Selects(db, escrow, saleId, s))
              && o.matchedEvent == (if o.eventLookup.Matched? then Some(EventOf(db.events[EventKey(s.blockHash, s.logIndex)])) else None)
              && o.effect == (if !o.eventLookup.Matched? then NotAssessed
                              else if EffectConsistent(o.sale, o.claim, o.matchedEvent.value.event) then Consistent else Inconsistent)
  {
    if s.blockNumber > MAX_SAFE_INTEGER {
      return Failure(BlockNumberUnsafe);
    }
    if db.checkpoint.None? {
      return Failure(ReadModelUninitialized);
    }
    var sale, claim := SaleOf(Lookup(db.tables.sales, saleId)), ClaimOf(Lookup(db.tables.claims, saleId));
    var atHeight := CanonicalAtHeight(db, s.blockNumber);
    var identity := Lookup(db.blocks, s.blockHash);
    var reached := db.checkpoint.value.number >= s.blockNumber;
    var exact := identity.Some? && identity.value.number == s.blockNumber && identity.value.canonical
                 && identity.value.scanComplete && identity.value.logScope == db.logScope;
    var coverage := if !reached then NotReached else if exact then Scanned else Unverifiable;
    var eventLookup, matchedEvent := NotFound, None;
    if identity.Some? && (!identity.value.canonical || atHeight != Some(s.blockHash)) {
      eventLookup := Noncanonical;
    } else if coverage.Scanned? {
      var event := Lookup(db.events, EventKey(s.blockHash, s.logIndex));
      if event.None? {
        eventLookup := NotFound;
      } else if event.value.envelope.transactionHash != s.transactionHash || event.value.envelope.blockNumber != s.blockNumber
                || event.value.envelope.contractAddress != escrow || !event.value.decoded.SaleFunded?
                || event.value.decoded.saleId != saleId {
        eventLookup := SelectorMismatch;
      } else {
        eventLookup, matchedEvent := Matched, Some(EventOf(event.value));
      }
    }
    var effect := NotAssessed;
    if matchedEvent.Some? {
      var funded := matchedEvent.value.event;
      var allowedStatus := sale.Some? && (sale.value.status.Funded? || sale.value.status.Completed? || sale.value.status.Expired?);
      var claimConsistent := sale.None? || !sale.value.status.Funded? || claim.None?;
      effect := if sale.Some? && allowedStatus && claimConsistent && sale.value.saleId == funded.saleId
                   && sale.value.buyer == Some(funded.buyer) && sale.value.priceWei == funded.amountWei
                   && sale.value.fundedAt == Some(funded.fundedAt) && sale.value.expiresAt == Some(funded.expiresAt)
                then Consistent else Inconsistent;
    }
    return Success(Observation(sale, claim, coverage, atHeight, eventLookup, matchedEvent, effect));
  }

  predicate HasCanonicalNumber(db: Db, h: Hash, number: nat) {
    h in db.blocks && db.blocks[h].canonical && db.blocks[h].number == number
  }

  // ---- soundness against history ----

  /** Nothing that happens to a sale after its funding takes the funding back. */
  lemma {:induction false} FundingStays(row: SaleRow, funded: Event, es: seq<OrderedEvent>, id: nat)
    requires funded.SaleFunded? && FundingApplied(row.sale, funded)
    requires forall e <- es :: EntityOf(e) == SaleEntity(id)
    requires ReplayRow(SaleValue(row), es).Success?
    decreases |es|
    ensures ReplayRow(SaleValue(row), es).value.SaleValue?
    ensures FundingApplied(ReplayRow(SaleValue(row), es).value.sale.sale, funded)
  {
    if es != [] {
      var next := StepRow(SaleValue(row), es[0]).value;
      FundingStays(next.sale, funded, es[1..], id);
    }
  }

  /** An accepted sequence of one sale's events with its funding in it leaves the funding in the row. */
  lemma {:induction false} FundingRemains(row: Row, es: seq<OrderedEvent>, e: OrderedEvent, id: nat)
    requires e in es && e.event.SaleFunded?
    requires forall f <- es :: EntityOf(f) == SaleEntity(id)
    requires ReplayRow(row, es).Success?
    decreases |es|
    ensures ReplayRow(row, es).value.SaleValue? && FundingApplied(ReplayRow(row, es).value.sale.sale, e.event)
  {
    var next := StepRow(row, es[0]).value;
    if es[0] == e {
      FundingStays(next.sale, e.event, es[1..], id);
    } else {
      FundingRemains(next, es[1..], e, id);
    }
  }

  lemma {:induction false} AboutKeeps(es: seq<OrderedEvent>, k: Entity, e: OrderedEvent)
    ensures e in About(es, k) <==> e in es && EntityOf(e) == k
  {
    if es != [] {
      AboutKeeps(es[1..], k, e);
      assert e in es <==> e == es[0] || e in es[1..];
    }
  }

  /** Every funding in an accepted journal is still visible in its sale's row. */
  lemma FundingVisible(es: seq<OrderedEvent>, e: OrderedEvent)
    requires Replay(EMPTY_TABLES, es).Success? && e in es && e.event.SaleFunded?
    ensures var t := Replay(EMPTY_TABLES, es).value;
            e.event.saleId in t.sales && FundingApplied(t.sales[e.event.saleId].sale, e.event)
  {
    var id := e.event.saleId;
    var k := SaleEntity(id);
    AcceptedReplayIsRowwise(EMPTY_TABLES, es, k);
    forall f ensures f in About(es, k) <==> f in es && EntityOf(f) == k {
      AboutKeeps(es, k, f);
    }
    FundingRemains(NoRow, About(es, k), e, id);
  }

  /** A canonical journal row is an event of the history. */
  lemma RowInHistory(db: Db, l: Ledger, scanStart: nat, key: EventKey)
    requires Represents(db, l, scanStart) && CanonicalEvent(db, key)
    ensures EventOf(db.events[key]) in AllEvents(History(l))
  {
    CanonicalRow(db, l, scanStart, db.events[key]);
    RowInRows(AllEvents(History(l)), db.events[key]);
  }

  /** A matched lookup in a state that agrees with its journal: the sale carries the funding, so the effect is
      CONSISTENT exactly when the amount is the listed price and no claim exists while still FUNDED. */
  lemma MatchedFundingIsApplied(db: Db, l: Ledger, scanStart: nat, escrow: Address, saleId: nat, s: Selector)
    requires Agrees(db, l, scanStart) && ScannedBlock(db, s) && Selects(db, escrow, saleId, s)
    ensures saleId in db.tables.sales
    ensures var sale, funded := db.tables.sales[saleId].sale, db.events[EventKey(s.blockHash, s.logIndex)].decoded;
            && FundingApplied(sale, funded)
            && (EffectConsistent(Some(sale), ClaimOf(Lookup(db.tables.claims, saleId)), funded) <==>
                  sale.priceWei == funded.amountWei && !(sale.status.Funded? && saleId in db.tables.claims))
  {
    var key := EventKey(s.blockHash, s.logIndex);
    RowInHistory(db, l, scanStart, key);
    FundingVisible(AllEvents(History(l)), EventOf(db.events[key]));
  }

  /** In such a state a log of a canonical block is in the journal exactly when the history has it. */
  lemma LookupIsComplete(db: Db, l: Ledger, scanStart: nat, s: Selector)
    requires Agrees(db, l, scanStart) && ScannedBlock(db, s)
    ensures EventKey(s.blockHash, s.logIndex) in db.events <==>
            exists e <- AllEvents(History(l)) :: KeyOf(e) == EventKey(s.blockHash, s.logIndex)
  {
    var key := EventKey(s.blockHash, s.logIndex);
    if key in db.events {
      RowInHistory(db, l, scanStart, key);
      StoredRow(db, l, scanStart, key);
    }
    if e :| e in AllEvents(History(l)) && KeyOf(e) == key {
      RowInRows(AllEvents(History(l)), RowOf(e));
      CanonicalRow(db, l, scanStart, RowOf(e));
      var k :| CanonicalEvent(db, k) && db.events[k] == RowOf(e);
      StoredRow(db, l, scanStart, k);
    }
  }

  /** A block at or below the checkpoint that is not the canonical one of its height is never reported as scanned. */
  lemma ScannedIsCanonicalHistory(db: Db, l: Ledger, scanStart: nat, s: Selector)
    requires Represents(db, l, scanStart)
    ensures ScannedBlock(db, s) <==>
              scanStart <= s.blockNumber < scanStart + |l.canon| && l.canon[s.blockNumber - scanStart] == s.blockHash
  {
    if ScannedBlock(db, s) {
      CanonPosition(db, l, scanStart, s.blockHash);
    }
    if scanStart <= s.blockNumber < scanStart + |l.canon| && l.canon[s.blockNumber - scanStart] == s.blockHash {
      CanonAt(db, l, scanStart, s.blockNumber - scanStart);
    }
  }
}
