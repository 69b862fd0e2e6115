/** Replay splits by entity: a sale, a claim and a token are replayed independently of each other. */
module EntityReplay {
  import opened Wrappers
  import opened Domain
  import opened Projectors
  import opened ProjectionTables

  datatype Entity = SaleEntity(saleId: nat) | ClaimEntity(claimId: nat) | TokenEntity(key: TokenKey)

  datatype Row = NoRow | SaleValue(sale: SaleRow) | ClaimValue(claim: ClaimRow) | OwnerValue(owner: OwnerRow)

  /** The one entity an event is about. */
  function EntityOf(e: OrderedEvent): Entity {
    match e.event
    case Transfer(tokenId, _, _) => TokenEntity(TokenKey(e.envelope.contractAddress, tokenId))
    case PaymentClaimCreated(id, _, _, _) => ClaimEntity(id)
    case PaymentWithdrawn(id, _) => ClaimEntity(id)
    case _ => SaleEntity(e.event.saleId)
  }

  function RowAt(t: Tables, k: Entity): Row {
    match k
    case SaleEntity(id) => if id in t.sales then SaleValue(t.sales[id]) else NoRow
    case ClaimEntity(id) => if id in t.claims then ClaimValue(t.claims[id]) else NoRow
    case TokenEntity(key) => if key in t.owners then OwnerValue(t.owners[key]) else NoRow
  }

  /** One event on the row of its own entity, with no table in sight. */
  function StepRow(row: Row, e: OrderedEvent): Result<Row, ProjectionError> {
    match EntityOf(e)
    case TokenEntity(_) => Success(OwnerValue(OwnerRow(e.event.to, RefOf(e), e.envelope.blockNumber)))
    case ClaimEntity(_) =>
      var next :- NextClaimRow(if row.ClaimValue? then Some(row.claim) else None, e);
      Success(if next.Some? then ClaimValue(next.value) else NoRow)
    case SaleEntity(_) =>
      var next :- NextSaleRow(if row.SaleValue? then Some(row.sale) else None, e);
      Success(if next.Some? then SaleValue(next.value) else NoRow)
  }

  function ReplayRow(row: Row, es: seq<OrderedEvent>): Result<Row, ProjectionError>
    decreases |es|
  {
    if es == [] then Success(row)
    else
      var next :- StepRow(row, es[0]);
      ReplayRow(next, es[1..])
  }

  /** The subsequence of events about one entity. */
  function About(es: seq<OrderedEvent>, k: Entity): seq<OrderedEvent> {
    if es == [] then []
    else if EntityOf(es[0]) == k then [es[0]] + About(es[1..], k)
    else About(es[1..], k)
  }

  lemma StepTouchesOneRow(t: Tables, e: OrderedEvent, k: Entity)
    ensures ApplyEvent(t, e).Success? <==> StepRow(RowAt(t, EntityOf(e)), e).Success?
    ensures ApplyEvent(t, e).Success? ==>
              RowAt(ApplyEvent(t, e).value, k) ==
              if k == EntityOf(e) then StepRow(RowAt(t, k), e).value else RowAt(t, k)
  {
    if !e.event.Transfer? {
      var id := e.event.saleId;
      if EntityOf(e).SaleEntity? {
        assert NextClaimRow(Lookup(t.claims, id), e) == Success(Lookup(t.claims, id));
      } else {
        assert NextSaleRow(Lookup(t.sales, id), e) == Success(Lookup(t.sales, id));
      }
    }
  }

  /** An accepted journal leaves in each row what that entity's own events leave there. */
  lemma {:induction false} AcceptedReplayIsRowwise(t: Tables, es: seq<OrderedEvent>, k: Entity)
    requires Replay(t, es).Success?
    decreases |es|
    ensures ReplayRow(RowAt(t, k), About(es, k)) == Success(RowAt(Replay(t, es).value, k))
  {
    if es != [] {
      StepTouchesOneRow(t, es[0], k);
      AcceptedReplayIsRowwise(ApplyEvent(t, es[0]).value, es[1..], k);
      if k == EntityOf(es[0]) {
        assert About(es, k)[1..] == About(es[1..], k);
      }
    }
  }

  /** If every entity accepts its own events, the whole journal is accepted. */
  lemma {:induction false} RowwiseAcceptance(t: Tables, es: seq<OrderedEvent>)
    requires forall k :: ReplayRow(RowAt(t, k), About(es, k)).Success?
    decreases |es|
    ensures Replay(t, es).Success?
  {
    if es != [] {
      var own := EntityOf(es[0]);
      assert About(es, own)[0] == es[0];
      assert ReplayRow(RowAt(t, own), About(es, own)).Success?;
      StepTouchesOneRow(t, es[0], own);
      var next := ApplyEvent(t, es[0]).value;
      forall k ensures ReplayRow(RowAt(next, k), About(es[1..], k)).Success? {
        StepTouchesOneRow(t, es[0], k);
        assert ReplayRow(RowAt(t, k), About(es, k)).Success?;
        if k == own {
          assert About(es, k)[1..] == About(es[1..], k);
        }
      }
      RowwiseAcceptance(next, es[1..]);
    }
  }

  /** A journal is accepted exactly when each entity's own subsequence is. */
  lemma ReplaySplitsByEntity(t: Tables, es: seq<OrderedEvent>)
    ensures Replay(t, es).Success? <==> forall k :: ReplayRow(RowAt(t, k), About(es, k)).Success?
    ensures Replay(t, es).Success? ==>
              forall k :: RowAt(Replay(t, es).value, k) == ReplayRow(RowAt(t, k), About(es, k)).value
  {
    if Replay(t, es).Success? {
      forall k ensures ReplayRow(RowAt(t, k), About(es, k)) == Success(RowAt(Replay(t, es).value, k)) {
        AcceptedReplayIsRowwise(t, es, k);
      }
    } else if forall k :: ReplayRow(RowAt(t, k), About(es, k)).Success? {
      RowwiseAcceptance(t, es);
    }
  }

  /** Tables are their rows. */
  lemma SameRowsSameTables(a: Tables, b: Tables)
    requires forall k :: RowAt(a, k) == RowAt(b, k)
    ensures a == b
  {
    forall id ensures Lookup(a.sales, id) == Lookup(b.sales, id) && Lookup(a.claims, id) == Lookup(b.claims, id) {
      assert RowAt(a, SaleEntity(id)) == RowAt(b, SaleEntity(id));
      assert RowAt(a, ClaimEntity(id)) == RowAt(b, ClaimEntity(id));
    }
    forall key ensures Lookup(a.owners, key) == Lookup(b.owners, key) {
      assert RowAt(a, TokenEntity(key)) == RowAt(b, TokenEntity(key));
    }
    assert a.sales == b.sales by { SameLookups(a.sales, b.sales); }
    assert a.claims == b.claims by { SameLookups(a.claims, b.claims); }
    assert a.owners == b.owners by { SameLookups(a.owners, b.owners); }
  }

  lemma SameLookups<K, V>(a: map<K, V>, b: map<K, V>)
    requires forall k <- a.Keys + b.Keys :: Lookup(a, k) == Lookup(b, k)
    ensures a == b
  {
    forall k <- a.Keys + b.Keys ensures k in a && k in b && a[k] == b[k] {
      assert Lookup(a, k) == Lookup(b, k);
    }
  }

  /** Any reordering that keeps each entity's own order is accepted alike and gives the same tables. */
  lemma ReorderingPreservesReplay(t: Tables, es: seq<OrderedEvent>, fs: seq<OrderedEvent>)
    requires forall k :: About(es, k) == About(fs, k)
    ensures Replay(t, es).Success? <==> Replay(t, fs).Success?
    ensures Replay(t, es).Success? ==> Replay(t, es) == Replay(t, fs)
  {
    ReplaySplitsByEntity(t, es);
    ReplaySplitsByEntity(t, fs);
    assert forall k :: ReplayRow(RowAt(t, k), About(es, k)) == ReplayRow(RowAt(t, k), About(fs, k));
    if Replay(t, es).Success? {
      SameRowsSameTables(Replay(t, es).value, Replay(t, fs).value);
    }
  }
}
