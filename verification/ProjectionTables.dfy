/** The three projection tables and the fold of decoded events over them. */
module ProjectionTables {
  import opened Wrappers
  import opened Domain
  import opened Projectors

  /** Where a row was last written from. */
  datatype LogRef = LogRef(blockHash: Hash, logIndex: nat)

  datatype SaleRow = SaleRow(sale: Sale, createdBlock: nat, updatedBlock: nat, lastEvent: LogRef)
  datatype ClaimRow = ClaimRow(claim: Claim, creation: LogRef, withdrawal: Option<LogRef>)
  datatype OwnerRow = OwnerRow(owner: Address, lastTransfer: LogRef, updatedBlock: nat)

  datatype TokenKey = TokenKey(collection: Address, tokenId: nat)

  datatype Tables = Tables(
    sales: map<nat, SaleRow>, claims: map<nat, ClaimRow>, owners: map<TokenKey, OwnerRow>)

  const EMPTY_TABLES := Tables(map[], map[], map[])

  function RefOf(e: OrderedEvent): LogRef {
    LogRef(e.envelope.blockHash, e.envelope.logIndex)
  }

  /** INSERT ... ON CONFLICT DO UPDATE on sales: an existing row keeps its immutable columns. */
  function UpsertSale(existing: Option<SaleRow>, next: Sale, e: OrderedEvent): SaleRow {
    match existing
    case None => SaleRow(next, e.envelope.blockNumber, e.envelope.blockNumber, RefOf(e))
    case Some(row) =>
      SaleRow(row.sale.(buyer := next.buyer, status := next.status, fundedAt := next.fundedAt,
                        expiresAt := next.expiresAt, tokenReclaimed := next.tokenReclaimed),
              row.createdBlock, e.envelope.blockNumber, RefOf(e))
  }

  /** The same upsert on payment_claims. */
  function UpsertClaim(existing: Option<ClaimRow>, next: Claim, e: OrderedEvent): ClaimRow {
    var withdrawal := if next.withdrawn then Some(RefOf(e)) else None;
    match existing
    case None => ClaimRow(next, RefOf(e), withdrawal)
    case Some(row) =>
      ClaimRow(row.claim.(withdrawn := next.withdrawn, recipient := next.recipient), row.creation, withdrawal)
  }

  function SaleOf(row: Option<SaleRow>): Option<Sale> {
    if row.Some? then Some(row.value.sale) else None
  }

  function ClaimOf(row: Option<ClaimRow>): Option<Claim> {
    if row.Some? then Some(row.value.claim) else None
  }

  /** The row a sale event leaves in place of `row`; price_wei must be positive. */
  function NextSaleRow(row: Option<SaleRow>, e: OrderedEvent): Result<Option<SaleRow>, ProjectionError> {
    var projected :- ProjectSale(SaleOf(row), e.event);
    if projected.Keep? then Success(row)
    else if projected.value.priceWei == 0 then Failure(CheckViolated("sale_price_check"))
    else Success(Some(UpsertSale(row, projected.value, e)))
  }

  /** The row a payment event leaves in place of `row`; amount_wei must be positive. */
  function NextClaimRow(row: Option<ClaimRow>, e: OrderedEvent): Result<Option<ClaimRow>, ProjectionError> {
    var projected :- ProjectPayment(ClaimOf(row), e.event);
    if projected.Keep? then Success(row)
    else if projected.value.amountWei == 0 then Failure(CheckViolated("claim_amount_check"))
    else Success(Some(UpsertClaim(row, projected.value, e)))
  }

  function Store<K, V>(m: map<K, V>, k: K, v: Option<V>): map<K, V> {
    if v.Some? then m[k := v.value] else m
  }

  function ApplyEvent(t: Tables, e: OrderedEvent): Result<Tables, ProjectionError> {
    if e.event.Transfer? then
      var key := TokenKey(e.envelope.contractAddress, e.event.tokenId);
      Success(t.(owners := t.owners[key := OwnerRow(e.event.to, RefOf(e), e.envelope.blockNumber)]))
    else
      var id := e.event.saleId;
      var claim :- NextClaimRow(Lookup(t.claims, id), e);
      var sale :- NextSaleRow(Lookup(t.sales, id), e);
      Success(t.(claims := Store(t.claims, id, claim), sales := Store(t.sales, id, sale)))
  }

  /** The fold of ApplyEvent: the meaning of a journal. */
  function Replay(t: Tables, es: seq<OrderedEvent>): Result<Tables, ProjectionError>
    decreases |es|
  {
    if es == [] then Success(t)
    else
      var next :- ApplyEvent(t, es[0]);
      Replay(next, es[1..])
  }

  lemma {:induction false} ReplayAppend(t: Tables, a: seq<OrderedEvent>, b: seq<OrderedEvent>)
    decreases |a|
    ensures Replay(t, a + b) == if Replay(t, a).Success? then Replay(Replay(t, a).value, b) else Replay(t, a)
  {
    if a == [] {
      assert a + b == b;
    } else {
      assert (a + b)[0] == a[0] && (a + b)[1..] == a[1..] + b;
      var next := ApplyEvent(t, a[0]);
      if next.Success? {
        ReplayAppend(next.value, a[1..], b);
      }
    }
  }
}
