/** What holds of the projection tables after every accepted journal. */
module Lifecycle {
  import opened Wrappers
  import opened Domain
  import opened Projectors
  import opened ProjectionTables

  predicate WasFunded(status: SaleStatus) {
    status.Funded? || status.Completed? || status.Expired?
  }

  predicate SaleSound(id: nat, row: SaleRow) {
    && row.sale.saleId == id
    && row.sale.priceWei > 0
    && (row.sale.buyer.Some? <==> WasFunded(row.sale.status))
    && (row.sale.fundedAt.Some? <==> WasFunded(row.sale.status))
    && (row.sale.expiresAt.Some? <==> WasFunded(row.sale.status))
    && (row.sale.buyer.Some? ==> row.sale.buyer.value == row.sale.allowedBuyer)
    && (row.sale.tokenReclaimed ==> row.sale.status.Cancelled? || row.sale.status.Expired?)
  }

  predicate ClaimSound(id: nat, row: ClaimRow) {
    && row.claim.saleId == id
    && row.claim.amountWei > 0
    && (row.claim.withdrawn <==> row.withdrawal.Some?)
    && (row.claim.withdrawn <==> row.claim.recipient.Some?)
  }

  predicate Sound(t: Tables) {
    && (forall id <- t.sales :: SaleSound(id, t.sales[id]))
    && (forall id <- t.claims :: ClaimSound(id, t.claims[id]))
  }

  /** The column-limited upserts store exactly the record the projector returned. */
  lemma UpsertsStoreProjectorOutput(sale: SaleRow, claim: ClaimRow, e: OrderedEvent)
    ensures var p := ProjectSale(Some(sale.sale), e.event);
            p.Success? && p.value.Put? ==> UpsertSale(Some(sale), p.value.value, e).sale == p.value.value
    ensures var p := ProjectPayment(Some(claim.claim), e.event);
            p.Success? && p.value.Put? ==> UpsertClaim(Some(claim), p.value.value, e).claim == p.value.value
  {
  }

  lemma StepKeepsSound(t: Tables, e: OrderedEvent)
    requires Sound(t) && ApplyEvent(t, e).Success?
    ensures Sound(ApplyEvent(t, e).value)
  {
    if !e.event.Transfer? {
      var id := e.event.saleId;
      var claim := NextClaimRow(Lookup(t.claims, id), e).value;
      var sale := NextSaleRow(Lookup(t.sales, id), e).value;
      assert claim.Some? ==> ClaimSound(id, claim.value);
      assert sale.Some? ==> SaleSound(id, sale.value);
    }
  }

  /** Buyer and deadlines are set exactly in FUNDED, COMPLETED and EXPIRED, and only by the reserved buyer. */
  lemma {:induction false} ReplayKeepsSound(t: Tables, es: seq<OrderedEvent>)
    requires Sound(t) && Replay(t, es).Success?
    decreases |es|
    ensures Sound(Replay(t, es).value)
  {
    if es != [] {
      StepKeepsSound(t, es[0]);
      ReplayKeepsSound(ApplyEvent(t, es[0]).value, es[1..]);
    }
  }

  // ---- conservation of claimable value ----

  function Claimable(row: ClaimRow): nat {
    if row.claim.withdrawn then 0 else row.claim.amountWei
  }

  /** The sum of CLAIMABLE amounts over some of the rows. */
  ghost function SumOver(ids: set<nat>, claims: map<nat, ClaimRow>): nat
    requires ids <= claims.Keys
  {
    if ids == {} then 0
    else
      var id :| id in ids;
      Claimable(claims[id]) + SumOver(ids - {id}, claims)
  }

  ghost function TotalClaimable(claims: map<nat, ClaimRow>): nat {
    SumOver(claims.Keys, claims)
  }

  lemma {:induction false} SumWithout(ids: set<nat>, claims: map<nat, ClaimRow>, id: nat)
    requires id in ids && ids <= claims.Keys
    ensures SumOver(ids, claims) == Claimable(claims[id]) + SumOver(ids - {id}, claims)
  {
    var pick :| pick in ids && SumOver(ids, claims) == Claimable(claims[pick]) + SumOver(ids - {pick}, claims);
    if pick != id {
      SumWithout(ids - {pick}, claims, id);
      SumWithout(ids - {id}, claims, pick);
      assert ids - {pick} - {id} == ids - {id} - {pick};
    }
  }

  lemma {:induction false} SumOfUnchanged(ids: set<nat>, a: map<nat, ClaimRow>, b: map<nat, ClaimRow>)
    requires ids <= a.Keys && ids <= b.Keys
    requires forall id <- ids :: a[id] == b[id]
    ensures SumOver(ids, a) == SumOver(ids, b)
  {
    if ids != {} {
      var id :| id in ids;
      SumWithout(ids, a, id);
      SumWithout(ids, b, id);
      SumOfUnchanged(ids - {id}, a, b);
    }
  }

  lemma TotalAfterStore(claims: map<nat, ClaimRow>, id: nat, row: ClaimRow)
    ensures TotalClaimable(claims[id := row]) + (if id in claims then Claimable(claims[id]) else 0)
         == TotalClaimable(claims) + Claimable(row)
  {
    var after := claims[id := row];
    var others := claims.Keys - {id};
    SumWithout(after.Keys, after, id);
    assert after.Keys - {id} == others;
    SumOfUnchanged(others, claims, after);
    if id in claims {
      SumWithout(claims.Keys, claims, id);
    } else {
      assert claims.Keys == others;
    }
  }

  /** What an event promises to pay out. */
  function Created(e: OrderedEvent): nat {
    if e.event.PaymentClaimCreated? then e.event.amountWei else 0
  }

  /** What an event pays out, given the claims it finds. */
  function Withdrawn(t: Tables, e: OrderedEvent): nat {
    if e.event.PaymentWithdrawn? && e.event.saleId in t.claims then t.claims[e.event.saleId].claim.amountWei else 0
  }

  function TotalCreated(es: seq<OrderedEvent>): nat {
    if es == [] then 0 else Created(es[0]) + TotalCreated(es[1..])
  }

  function TotalWithdrawn(t: Tables, es: seq<OrderedEvent>): nat
    decreases |es|
  {
    if es == [] || ApplyEvent(t, es[0]).Failure? then 0
    else Withdrawn(t, es[0]) + TotalWithdrawn(ApplyEvent(t, es[0]).value, es[1..])
  }

  lemma StepConservesClaims(t: Tables, e: OrderedEvent)
    requires ApplyEvent(t, e).Success?
    ensures TotalClaimable(ApplyEvent(t, e).value.claims) + Withdrawn(t, e) == TotalClaimable(t.claims) + Created(e)
  {
    if !e.event.Transfer? {
      var id := e.event.saleId;
      var claim := NextClaimRow(Lookup(t.claims, id), e).value;
      if e.event.PaymentClaimCreated? || e.event.PaymentWithdrawn? {
        TotalAfterStore(t.claims, id, claim.value);
      } else {
        assert Store(t.claims, id, claim) == t.claims;
      }
    }
  }

  /** Claimable value is what was created minus what was withdrawn. */
  lemma {:induction false} ClaimsAreConserved(t: Tables, es: seq<OrderedEvent>)
    requires Replay(t, es).Success?
    decreases |es|
    ensures TotalClaimable(Replay(t, es).value.claims) + TotalWithdrawn(t, es)
         == TotalClaimable(t.claims) + TotalCreated(es)
  {
    if es != [] {
      StepConservesClaims(t, es[0]);
      ClaimsAreConserved(ApplyEvent(t, es[0]).value, es[1..]);
    }
  }
}
